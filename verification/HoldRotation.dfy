/** The rotation by runs: the greedy loop over blocks, with its list of free rigs, proved to deal a closed
    modular form, to share no rig and to idle none, and so to leave every turn on one rig. */
module HoldRotation {
  import opened Arithmetic

  // The cell of somebody standing off.
  const OFF := -1

  // ------------------------------------------------- one block of the loop

  /** The rigs at or after r that nobody holds and that are not already free, ascending. */
  function Untaken(held: seq<int>, first: seq<int>, r: nat, nRigs: nat): (free: seq<int>)
    requires r <= nRigs
    decreases nRigs - r
  {
    if r == nRigs then []
    else if r !in held && r !in first then [r] + Untaken(held, first, r + 1, nRigs)
    else Untaken(held, first, r + 1, nRigs)
  }

  /** Operators from i on who stand idle take the free rigs in order; `off` takes none. */
  function HandOut(held: seq<int>, free: seq<int>, off: nat, i: nat): (r: seq<int>)
    requires i <= |held|
    ensures |r| == |held|
    decreases |held| - i
  {
    if i == |held| then held
    else if i == off || held[i] != OFF || free == [] then HandOut(held, free, off, i + 1)
    else HandOut(held[i := free[0]], free[1..], off, i + 1)
  }

  function StepOff(held: seq<int>, off: nat): (r: seq<int>)
    requires off < |held|
    ensures |r| == |held|
  {
    held[off := OFF]
  }

  /** The free list of one block: the rig just put down comes before every other. */
  function FreeList(held: seq<int>, off: nat, nRigs: nat): seq<int>
    requires off < |held|
  {
    var first := if held[off] != OFF then [held[off]] else [];
    first + Untaken(StepOff(held, off), first, 0, nRigs)
  }

  function HoldStep(held: seq<int>, off: nat, nRigs: nat): (r: seq<int>)
    requires off < |held|
    ensures |r| == |held|
  {
    HandOut(StepOff(held, off), FreeList(held, off, nRigs), off, 0)
  }

  /** Who holds what once b blocks have been dealt. */
  function HeldAfter(b: nat, nOps: nat, nRigs: nat): (r: seq<int>)
    requires nOps > 0
    ensures |r| == nOps
  {
    if b == 0 then seq(nOps, _ => OFF)
    else HoldStep(HeldAfter(b - 1, nOps, nRigs), (b - 1) % nOps, nRigs)
  }

  /** The cell the loop writes for operator i in block b, before the sheet is mirrored. */
  function HoldCell(i: nat, b: nat, nOps: nat, nRigs: nat): int
    requires i < nOps
  {
    if i == b % nOps then OFF else HeldAfter(b + 1, nOps, nRigs)[i]
  }

  // ------------------------------------------ nobody shares, nothing idles

  /** Every entry is OFF or a rig of the floor, and no rig appears twice. */
  ghost predicate Placed(held: seq<int>, nRigs: nat) {
    && (forall i :: 0 <= i < |held| ==> held[i] == OFF || 0 <= held[i] < nRigs)
    && (forall i, j :: 0 <= i < j < |held| && held[i] != OFF ==> held[i] != held[j])
  }

  /** Rigs that may be handed out: real, distinct, and in nobody's hands. */
  ghost predicate Spare(free: seq<int>, held: seq<int>, nRigs: nat) {
    && (forall k :: 0 <= k < |free| ==> 0 <= free[k] < nRigs && free[k] !in held)
    && (forall k, l :: 0 <= k < l < |free| ==> free[k] != free[l])
  }

  ghost predicate Covers(held: seq<int>, free: seq<int>, nRigs: nat) {
    forall r :: 0 <= r < nRigs ==> r in held || r in free
  }

  lemma {:induction false} UntakenIsSpare(held: seq<int>, first: seq<int>, r: nat, nRigs: nat)
    requires r <= nRigs
    ensures Spare(Untaken(held, first, r, nRigs), held, nRigs)
    ensures forall x :: x in Untaken(held, first, r, nRigs) ==> r <= x && x !in first
    ensures forall x :: r <= x < nRigs ==> x in held || x in first || x in Untaken(held, first, r, nRigs)
    decreases nRigs - r
  {
    if r < nRigs {
      UntakenIsSpare(held, first, r + 1, nRigs);
    }
  }

  lemma FreeListIsSpare(held: seq<int>, off: nat, nRigs: nat)
    requires off < |held| && Placed(held, nRigs)
    ensures Spare(FreeList(held, off, nRigs), StepOff(held, off), nRigs)
    ensures Covers(StepOff(held, off), FreeList(held, off, nRigs), nRigs)
  {
    var first := if held[off] != OFF then [held[off]] else [];
    UntakenIsSpare(StepOff(held, off), first, 0, nRigs);
  }

  lemma {:induction false} HandOutKeepsPlaces(held: seq<int>, free: seq<int>, off: nat, i: nat, nRigs: nat)
    requires i <= |held| && Placed(held, nRigs) && Spare(free, held, nRigs)
    ensures Placed(HandOut(held, free, off, i), nRigs)
    ensures forall j :: 0 <= j < |held| && (held[j] != OFF || j == off || j < i) ==>
              HandOut(held, free, off, i)[j] == held[j]
    decreases |held| - i
  {
    if i < |held| {
      if i == off || held[i] != OFF || free == [] {
        HandOutKeepsPlaces(held, free, off, i + 1, nRigs);
      } else {
        var next := held[i := free[0]];
        assert Spare(free[1..], next, nRigs) by {
          forall k | 0 <= k < |free[1..]| ensures free[1..][k] !in next {
            assert free[1..][k] == free[k + 1];
          }
        }
        HandOutKeepsPlaces(next, free[1..], off, i + 1, nRigs);
      }
    }
  }

  lemma {:induction false} NothingFreeChangesNothing(held: seq<int>, off: nat, i: nat)
    requires i <= |held|
    ensures HandOut(held, [], off, i) == held
    decreases |held| - i
  {
    if i < |held| {
      NothingFreeChangesNothing(held, off, i + 1);
    }
  }

  lemma HandedOutStaysCovered(held: seq<int>, free: seq<int>, i: nat, nRigs: nat)
    requires i < |held| && held[i] == OFF && free != []
    requires Spare(free, held, nRigs) && Covers(held, free, nRigs)
    ensures Spare(free[1..], held[i := free[0]], nRigs)
    ensures Covers(held[i := free[0]], free[1..], nRigs)
  {
    var next := held[i := free[0]];
    forall k | 0 <= k < |free[1..]| ensures 0 <= free[1..][k] < nRigs && free[1..][k] !in next {
      assert free[1..][k] == free[k + 1];
    }
    forall x | 0 <= x < nRigs ensures x in next || x in free[1..] {
      if x in held {
        var j :| 0 <= j < |held| && held[j] == x;
        assert next[j] == x;
      } else if x == free[0] {
        assert next[i] == x;
      }
    }
  }

  ghost predicate AllPlacedBut(held: seq<int>, off: nat, i: int) {
    forall j :: 0 <= j < i && j < |held| && j != off ==> held[j] != OFF
  }

  /** When the hand-out is over, either every rig is held or everyone but `off` is on one. */
  lemma {:induction false} HandOutLeavesNoChoice(held: seq<int>, free: seq<int>, off: nat, i: nat, nRigs: nat)
    requires i <= |held| && Spare(free, held, nRigs) && Covers(held, free, nRigs)
    requires AllPlacedBut(held, off, i)
    ensures Covers(HandOut(held, free, off, i), [], nRigs) || AllPlacedBut(HandOut(held, free, off, i), off, |held|)
    decreases |held| - i
  {
    if i < |held| {
      if i == off || held[i] != OFF {
        assert AllPlacedBut(held, off, i + 1);
        assert HandOut(held, free, off, i) == HandOut(held, free, off, i + 1);
        HandOutLeavesNoChoice(held, free, off, i + 1, nRigs);
      } else if free == [] {
        NothingFreeChangesNothing(held, off, i);
      } else {
        var next := held[i := free[0]];
        HandedOutStaysCovered(held, free, i, nRigs);
        assert AllPlacedBut(next, off, i + 1);
        assert HandOut(held, free, off, i) == HandOut(next, free[1..], off, i + 1);
        HandOutLeavesNoChoice(next, free[1..], off, i + 1, nRigs);
      }
    }
  }

  /** Every block the loop deals: one rig to one operator at most, and the operator whose turn it is stands off. */
  lemma {:induction false} HoldNeverDoubles(b: nat, nOps: nat, nRigs: nat)
    requires nOps > 0
    ensures Placed(HeldAfter(b, nOps, nRigs), nRigs)
    ensures b > 0 ==> HeldAfter(b, nOps, nRigs)[(b - 1) % nOps] == OFF
    decreases b
  {
    if b > 0 {
      HoldNeverDoubles(b - 1, nOps, nRigs);
      var held, off := HeldAfter(b - 1, nOps, nRigs), (b - 1) % nOps;
      FreeListIsSpare(held, off, nRigs);
      HandOutKeepsPlaces(StepOff(held, off), FreeList(held, off, nRigs), off, 0, nRigs);
    }
  }

  // ------------------------------------------------------------- counting

  function Rigs(n: nat): (s: set<int>)
    ensures |s| == n && forall x :: x in s <==> 0 <= x < n
  {
    if n == 0 then {} else Rigs(n - 1) + {n - 1}
  }

  function Busy(held: seq<int>): nat {
    if held == [] then 0 else Busy(held[1..]) + if held[0] == OFF then 0 else 1
  }

  lemma {:induction false} BusyFitsTheRigs(held: seq<int>, rigs: set<int>)
    requires forall i :: 0 <= i < |held| && held[i] != OFF ==> held[i] in rigs
    requires forall i, j :: 0 <= i < j < |held| && held[i] != OFF ==> held[i] != held[j]
    ensures Busy(held) <= |rigs|
  {
    if held != [] {
      var rest := if held[0] == OFF then rigs else rigs - {held[0]};
      BusyFitsTheRigs(held[1..], rest);
    }
  }

  lemma {:induction false} RigsNeedHands(held: seq<int>, rigs: set<int>)
    requires OFF !in rigs && forall x :: x in rigs ==> x in held
    ensures |rigs| <= Busy(held)
  {
    if held != [] {
      RigsNeedHands(held[1..], rigs - {held[0]});
    } else {
      assert forall x :: x in rigs ==> x in held;
      assert rigs == {};
    }
  }

  lemma {:induction false} OneOffTheRest(held: seq<int>, off: nat)
    requires off < |held| && held[off] == OFF
    ensures Busy(held) <= |held| - 1
    ensures (forall j :: 0 <= j < |held| && j != off ==> held[j] != OFF) ==> Busy(held) == |held| - 1
  {
    if off == 0 {
      BusyAtMostAll(held[1..]);
    } else {
      OneOffTheRest(held[1..], off - 1);
    }
  }

  lemma {:induction false} BusyAtMostAll(held: seq<int>)
    ensures Busy(held) <= |held|
    ensures (forall j :: 0 <= j < |held| ==> held[j] != OFF) ==> Busy(held) == |held|
  {
    if held != [] {
      BusyAtMostAll(held[1..]);
    }
  }

  lemma CoverNeedsMoreOps(held: seq<int>, off: nat, nRigs: nat)
    requires off < |held| && held[off] == OFF && Covers(held, [], nRigs)
    ensures |held| > nRigs
  {
    OneOffTheRest(held, off);
    forall x | x in Rigs(nRigs) ensures x in held {
      assert x in held || x in [];
    }
    RigsNeedHands(held, Rigs(nRigs));
  }

  lemma EveryoneWorkingCovers(held: seq<int>, off: nat, nRigs: nat)
    requires off < |held| && held[off] == OFF && Placed(held, nRigs) && |held| > nRigs
    requires AllPlacedBut(held, off, |held|)
    ensures Covers(held, [], nRigs)
  {
    OneOffTheRest(held, off);
    forall x | 0 <= x < nRigs ensures x in held {
      if x !in held {
        BusyFitsTheRigs(held, Rigs(nRigs) - {x});
        assert false;
      }
    }
  }

  /** In every block: no rig idles exactly when there are more operators than rigs. */
  lemma NoRigIdlesIffOpsOutnumberRigs(b: nat, nOps: nat, nRigs: nat)
    requires nOps > 0
    ensures Covers(HeldAfter(b + 1, nOps, nRigs), [], nRigs) <==> nOps > nRigs
  {
    var held, off := HeldAfter(b, nOps, nRigs), b % nOps;
    var next := HeldAfter(b + 1, nOps, nRigs);
    HoldNeverDoubles(b, nOps, nRigs);
    HoldNeverDoubles(b + 1, nOps, nRigs);
    FreeListIsSpare(held, off, nRigs);
    HandOutLeavesNoChoice(StepOff(held, off), FreeList(held, off, nRigs), off, 0, nRigs);
    assert next == HoldStep(held, off, nRigs);
    if Covers(next, [], nRigs) {
      CoverNeedsMoreOps(next, off, nRigs);
    } else if nOps > nRigs {
      EveryoneWorkingCovers(next, off, nRigs);
    }
  }

  // ---------------------------------------------------------- closed form

  /** The rig operator i holds in block b when one more operator than rigs shares them. */
  function ClosedRig(i: int, b: int, nOps: int): int
    requires nOps > 1
  {
    (i + (b - i) / nOps) % (nOps - 1)
  }

  function ClosedCell(i: int, b: int, nOps: int): int
    requires nOps > 1
  {
    if b % nOps == i then OFF else ClosedRig(i, b, nOps)
  }

  /** Only the operator whose block it is moves: everybody else's quotient stands still. */
  lemma QuotientStandsStill(i: int, b: int, n: int)
    requires n > 1 && 0 <= i < n && b % n != i
    ensures (b - i) / n == (b - 1 - i) / n
  {
    var q, r := (b - i) / n, (b - i) % n;
    if r == 0 {
      DivisionIsUnique(b, n, q, i);
      assert false;
    }
    DivisionIsUnique(b - 1 - i, n, q, r - 1);
  }

  lemma OthersStandStill(i: int, b: int, n: int)
    requires n > 1 && 0 <= i < n && b % n != i
    ensures ClosedRig(i, b, n) == ClosedRig(i, b - 1, n)
  {
    QuotientStandsStill(i, b, n);
  }

  lemma ClosedRigIs(i: int, b: int, n: int, q: int, r: int)
    requires n > 1 && b - i == q * n + r && 0 <= r < n
    ensures ClosedRig(i, b, n) == (i + q) % (n - 1)
  {
    DivisionIsUnique(b - i, n, q, r);
  }

  lemma OneMoreRound(x: int, m: int)
    requires m > 0
    ensures (x + m) % m == x % m
  {
    NextMultiple(x / m, m);
    DivisionIsUnique(x + m, m, x / m + 1, x % m);
  }

  /** The operator coming back takes exactly the rig the next one puts down. */
  lemma ReliefTakesTheSameRig(b: int, n: int)
    requires n > 1 && b >= 1
    ensures ClosedRig((b - 1) % n, b, n) == ClosedRig(b % n, b - 1, n)
    ensures (b - 1) % n != b % n
  {
    var q, p := (b - 1) / n, (b - 1) % n;
    ClosedRigIs(p, b, n, q, 1);
    if p < n - 1 {
      DivisionIsUnique(b, n, q, p + 1);
      NextMultiple(q - 1, n);
      ClosedRigIs(p + 1, b - 1, n, q - 1, n - 1);
    } else {
      NextMultiple(q, n);
      DivisionIsUnique(b, n, q + 1, 0);
      ClosedRigIs(0, b - 1, n, q, n - 1);
      OneMoreRound(q, n - 1);
    }
  }

  /** On a floor with everything free, operators 1, 2, ... take rigs 0, 1, ... in turn. */
  lemma {:induction false} FirstHandOut(held: seq<int>, free: seq<int>, i: nat, nRigs: nat)
    requires |held| == nRigs + 1 && 1 <= i <= |held|
    requires |free| == |held| - i && forall k :: 0 <= k < |free| ==> free[k] == i - 1 + k
    requires forall j :: i <= j < |held| ==> held[j] == OFF
    ensures var r := HandOut(held, free, 0, i);
            forall j :: 0 <= j < |held| ==> r[j] == if j < i then held[j] else j - 1
    decreases |held| - i
  {
    if i < |held| {
      FirstHandOut(held[i := free[0]], free[1..], i + 1, nRigs);
    }
  }

  lemma {:induction false} EverythingUntaken(held: seq<int>, r: nat, nRigs: nat)
    requires r <= nRigs && forall j :: 0 <= j < |held| ==> held[j] == OFF
    ensures var u := Untaken(held, [], r, nRigs);
            |u| == nRigs - r && forall k :: 0 <= k < |u| ==> u[k] == r + k
    decreases nRigs - r
  {
    if r < nRigs {
      EverythingUntaken(held, r + 1, nRigs);
    }
  }

  lemma {:induction false} NothingUntaken(held: seq<int>, first: seq<int>, r: nat, nRigs: nat)
    requires r <= nRigs && forall x :: r <= x < nRigs ==> x in held || x in first
    ensures Untaken(held, first, r, nRigs) == []
    decreases nRigs - r
  {
    if r < nRigs {
      NothingUntaken(held, first, r + 1, nRigs);
    }
  }

  /** One operator back, one rig free: they meet. */
  lemma {:induction false} LoneHandOut(held: seq<int>, x: int, off: nat, back: nat, i: nat)
    requires i <= back < |held| && back != off && held[back] == OFF
    requires forall j :: 0 <= j < |held| && j != off && j != back ==> held[j] != OFF
    ensures HandOut(held, [x], off, i) == held[back := x]
    decreases |held| - i
  {
    if i == back {
      NothingFreeChangesNothing(held[back := x], off, i + 1);
    } else {
      LoneHandOut(held, x, off, back, i + 1);
    }
  }

  lemma FirstCell(i: nat, n: nat)
    requires n > 1 && i < n
    ensures ClosedCell(i, 0, n) == i - 1
  {
    DivisionIsUnique(0, n, 0, 0);
    if i > 0 {
      assert (0 - i) / n == -1 by {
        DivisionIsUnique(0 - i, n, -1, n - i);
      }
      var m, k := n - 1, i - 1;
      assert k % m == k by {
        DivisionIsUnique(k, m, 0, k);
      }
    }
  }

  lemma FirstBlock(n: nat)
    requires n > 1
    ensures forall i :: 0 <= i < n ==> HeldAfter(1, n, n - 1)[i] == ClosedCell(i, 0, n)
  {
    var held := HeldAfter(0, n, n - 1);
    var free := FreeList(held, 0, n - 1);
    assert StepOff(held, 0) == held;
    EverythingUntaken(held, 0, n - 1);
    assert free == Untaken(held, [], 0, n - 1);
    FirstHandOut(held, free, 1, n - 1);
    assert HeldAfter(1, n, n - 1) == HandOut(held, free, 0, 0) == HandOut(held, free, 0, 1);
    forall i | 0 <= i < n ensures HeldAfter(1, n, n - 1)[i] == ClosedCell(i, 0, n) {
      FirstCell(i, n);
    }
  }

  ghost predicate IsClosed(held: seq<int>, b: int, n: int)
    requires n > 1
  {
    |held| == n && forall i :: 0 <= i < n ==> held[i] == ClosedCell(i, b, n)
  }

  /** The free list and the taken set, run as written, give the modular form for every block. */
  lemma {:induction false} HoldClosedForm(b: nat, n: nat)
    requires n > 1
    ensures IsClosed(HeldAfter(b + 1, n, n - 1), b, n)
    decreases b
  {
    if b == 0 {
      FirstBlock(n);
    } else {
      HoldClosedForm(b - 1, n);
      LaterStep(HeldAfter(b, n, n - 1), b, n);
    }
  }

  lemma RelievedRigIsTheOnlyOneFree(held: seq<int>, off: nat, nRigs: nat)
    requires off < |held| && held[off] != OFF && Covers(held, [], nRigs)
    ensures FreeList(held, off, nRigs) == [held[off]]
  {
    var stepped := StepOff(held, off);
    forall r | 0 <= r < nRigs ensures r in stepped || r in [held[off]] {
      assert r in held || r in [];
      var j :| 0 <= j < |held| && held[j] == r;
      if j != off {
        assert stepped[j] == r;
      }
    }
    NothingUntaken(stepped, [held[off]], 0, nRigs);
  }

  lemma LaterStep(held: seq<int>, b: nat, n: nat)
    requires n > 1 && b > 0 && IsClosed(held, b - 1, n) && held == HeldAfter(b, n, n - 1)
    ensures IsClosed(HoldStep(held, b % n, n - 1), b, n)
  {
    hide ClosedRig, HeldAfter;
    var off, back := b % n, (b - 1) % n;
    ReliefTakesTheSameRig(b, n);
    ClosedRigIsARig(off, b - 1, n);
    NoRigIdlesIffOpsOutnumberRigs(b - 1, n, n - 1);
    RelievedRigIsTheOnlyOneFree(held, off, n - 1);
    forall i | 0 <= i < n && i != back ensures held[i] != OFF {
      ClosedRigIsARig(i, b - 1, n);
    }
    LoneHandOut(StepOff(held, off), held[off], off, back, 0);
    forall i | 0 <= i < n ensures HoldStep(held, off, n - 1)[i] == ClosedCell(i, b, n) {
      if i != off && i != back {
        OthersStandStill(i, b, n);
      }
    }
  }

  lemma ClosedRigIsARig(i: int, b: int, n: int)
    requires n > 1
    ensures 0 <= ClosedRig(i, b, n) < n - 1
  {
  }

  // ------------------------------------------------------------ the loops

  /** `offOp` puts its rig down; then every rig nobody holds is free, the one just put down first. */
  method PutDown(held: array<int>, off: nat, nRigs: nat) returns (free: seq<int>)
    requires off < held.Length
    modifies held
    ensures held[..] == StepOff(old(held[..]), off)
    ensures free == FreeList(old(held[..]), off, nRigs)
  {
    free := [];
    if held[off] != OFF {
      free := [held[off]];
      held[off] := OFF;
    }
    ghost var first, now := free, held[..];
    assert now == StepOff(old(held[..]), off);

    var taken: set<int> := {};
    for i := 0 to held.Length
      invariant held[..] == now
      invariant forall x :: x in taken <==> x != OFF && x in now[..i]
    {
      assert now[..i + 1] == now[..i] + [held[i]];
      if held[i] != OFF {
        taken := taken + {held[i]};
      }
    }
    assert now[..held.Length] == now;
    for r := 0 to nRigs
      invariant held[..] == now
      invariant free + Untaken(now, first, r, nRigs) == first + Untaken(now, first, 0, nRigs)
      invariant forall x :: x in first ==> x in free
      invariant forall x :: x in free ==> x in first || x < r
    {
      if r !in taken && r !in free {
        assert free + Untaken(now, first, r, nRigs) == (free + [r]) + Untaken(now, first, r + 1, nRigs);
        free := free + [r];
      }
    }
  }

  /** Everyone standing idle takes the next free rig, in order. */
  method TakeUp(held: array<int>, spare: seq<int>, off: nat)
    modifies held
    ensures held[..] == HandOut(old(held[..]), spare, off, 0)
  {
    var free := spare;
    for i := 0 to held.Length
      invariant HandOut(held[..], free, off, i) == HandOut(old(held[..]), spare, off, 0)
    {
      ghost var before := held[..];
      if i != off && held[i] == OFF {
        if free != [] {
          held[i] := free[0];
          assert held[..] == before[i := free[0]];
          free := free[1..];
        } else {
          held[i] := OFF;
          assert held[..] == before;
        }
      }
    }
  }

  /** The reference sheet counts from the far end: both indexes are mirrored. */
  function SheetCell(j: nat, b: nat, nOps: nat, nRigs: nat): int
    requires j < nOps
  {
    var v := HoldCell(nOps - 1 - j, b, nOps, nRigs);
    if v == OFF then OFF else nRigs - 1 - v
  }

  /** The mirrored sheet for one more operator than rigs, with nothing dealt: plain arithmetic. */
  function ClosedSheetCell(j: nat, b: nat, nOps: nat): int
    requires j < nOps && nOps > 1
  {
    if b % nOps == nOps - 1 - j then OFF else nOps - 2 - ClosedRig(nOps - 1 - j, b, nOps)
  }

  lemma SheetIsClosed(j: nat, b: nat, nOps: nat)
    requires j < nOps && nOps > 1
    ensures SheetCell(j, b, nOps, nOps - 1) == ClosedSheetCell(j, b, nOps)
    ensures SheetCell(j, b, nOps, nOps - 1) == OFF <==> b % nOps == nOps - 1 - j
  {
    HoldClosedForm(b, nOps);
  }

  method FillColumn(rows: array2<int>, held: array<int>, b: nat, offOp: nat)
    requires held.Length == rows.Length0 && b < rows.Length1
    modifies rows
    ensures forall i, c :: 0 <= i < rows.Length0 && 0 <= c < rows.Length1 ==>
              rows[i, c] == if c != b then old(rows[i, c]) else if i == offOp then OFF else old(held[i])
  {
    for i := 0 to held.Length
      invariant held[..] == old(held[..])
      invariant forall k, c :: 0 <= k < rows.Length0 && 0 <= c < rows.Length1 ==>
                  rows[k, c] == if c != b || k >= i then old(rows[k, c]) else if k == offOp then OFF else held[k]
    {
      rows[i, b] := if i == offOp then OFF else held[i];
    }
  }

  method Mirror(rows: array2<int>, nRigs: nat) returns (mirrored: array2<int>)
    ensures fresh(mirrored) && mirrored.Length0 == rows.Length0 && mirrored.Length1 == rows.Length1
    ensures forall i, b :: 0 <= i < rows.Length0 && 0 <= b < rows.Length1 ==>
              mirrored[rows.Length0 - 1 - i, b] == if rows[i, b] == OFF then OFF else nRigs - 1 - rows[i, b]
  {
    var nOps, nBlocks := rows.Length0, rows.Length1;
    mirrored := new int[nOps, nBlocks]((_, _) => OFF);
    for i := 0 to nOps
      invariant forall k, c {:trigger rows[k, c]} :: 0 <= k < i && 0 <= c < nBlocks ==>
                  mirrored[nOps - 1 - k, c] == if rows[k, c] == OFF then OFF else nRigs - 1 - rows[k, c]
    {
      for b := 0 to nBlocks
        invariant forall k, c {:trigger rows[k, c]} :: 0 <= k <= i && 0 <= c < (if k < i then nBlocks else b) ==>
                    mirrored[nOps - 1 - k, c] == if rows[k, c] == OFF then OFF else nRigs - 1 - rows[k, c]
      {
        var v := rows[i, b];
        mirrored[nOps - 1 - i, b] := if v == OFF then OFF else nRigs - 1 - v;
      }
    }
  }

  method DealBlocks(nBlocks: nat, nOps: nat, nRigs: nat) returns (rows: array2<int>)
    requires nOps > 0
    ensures fresh(rows) && rows.Length0 == nOps && rows.Length1 == nBlocks
    ensures forall i, b :: 0 <= i < nOps && 0 <= b < nBlocks ==> rows[i, b] == HoldCell(i, b, nOps, nRigs)
  {
    rows := new int[nOps, nBlocks]((_, _) => OFF);
    var held := new int[nOps](_ => OFF);
    for b := 0 to nBlocks
      invariant held[..] == HeldAfter(b, nOps, nRigs)
      invariant forall i, c :: 0 <= i < nOps && 0 <= c < b ==> rows[i, c] == HoldCell(i, c, nOps, nRigs)
    {
      var offOp := b % nOps;
      var free := PutDown(held, offOp, nRigs);
      TakeUp(held, free, offOp);
      assert held[..] == HeldAfter(b + 1, nOps, nRigs);
      FillColumn(rows, held, b, offOp);
    }
  }

  method PlanHold(nBlocks: nat, nOps: nat, nRigs: nat) returns (mirrored: array2<int>)
    ensures mirrored.Length0 == nOps && mirrored.Length1 == nBlocks
    ensures forall j, b :: 0 <= j < nOps && 0 <= b < nBlocks ==>
              mirrored[j, b] == SheetCell(j, b, nOps, nRigs)
    ensures nOps == nRigs + 1 > 1 ==>
              forall j, b :: 0 <= j < nOps && 0 <= b < nBlocks ==> mirrored[j, b] == ClosedSheetCell(j, b, nOps)
  {
    // With no operators there is no row to fill; the source's remainder by zero writes nothing either.
    if nOps == 0 {
      return new int[0, nBlocks];
    }
    var rows := DealBlocks(nBlocks, nOps, nRigs);
    mirrored := Mirror(rows, nRigs);
    forall j, b | 0 <= j < nOps && 0 <= b < nBlocks
      ensures mirrored[j, b] == SheetCell(j, b, nOps, nRigs)
      ensures nOps == nRigs + 1 > 1 ==> mirrored[j, b] == ClosedSheetCell(j, b, nOps)
    {
      assert rows[nOps - 1 - j, b] == HoldCell(nOps - 1 - j, b, nOps, nRigs);
      if nOps == nRigs + 1 > 1 {
        SheetIsClosed(j, b, nOps);
      }
    }
  }

  // -------------------------------------------------------- nobody shares

  ghost predicate SomebodyOn(r: int, b: nat, nOps: nat, nRigs: nat) {
    exists j :: 0 <= j < nOps && SheetCell(j, b, nOps, nRigs) == r
  }

  lemma SheetCellOfHeld(j: nat, b: nat, nOps: nat, nRigs: nat)
    requires j < nOps
    ensures var v := HeldAfter(b + 1, nOps, nRigs)[nOps - 1 - j];
            SheetCell(j, b, nOps, nRigs) == if v == OFF then OFF else nRigs - 1 - v
  {
    HoldNeverDoubles(b + 1, nOps, nRigs);
    assert HeldAfter(b + 1, nOps, nRigs)[((b + 1) - 1) % nOps] == OFF;
  }

  /** In the mirrored sheet, for any crew size: every cell is OFF or a real rig, and two operators
      are never on one rig in the same block. */
  lemma SheetSharesNothing(b: nat, nOps: nat, nRigs: nat, i: nat, j: nat)
    requires i < nOps && j < nOps
    ensures OFF <= SheetCell(i, b, nOps, nRigs) < nRigs
    ensures i != j && SheetCell(i, b, nOps, nRigs) != OFF ==>
              SheetCell(i, b, nOps, nRigs) != SheetCell(j, b, nOps, nRigs)
  {
    HoldNeverDoubles(b + 1, nOps, nRigs);
    SheetCellOfHeld(i, b, nOps, nRigs);
    SheetCellOfHeld(j, b, nOps, nRigs);
  }

  /** And every rig has somebody on it in a block exactly when operators outnumber rigs. */
  lemma SheetIdlesNothingIff(b: nat, nOps: nat, nRigs: nat)
    requires nOps > 0
    ensures (forall r :: 0 <= r < nRigs ==> SomebodyOn(r, b, nOps, nRigs)) <==> nOps > nRigs
  {
    var held := HeldAfter(b + 1, nOps, nRigs);
    HoldNeverDoubles(b + 1, nOps, nRigs);
    NoRigIdlesIffOpsOutnumberRigs(b, nOps, nRigs);
    if nOps > nRigs {
      forall r | 0 <= r < nRigs ensures SomebodyOn(r, b, nOps, nRigs) {
        var v := nRigs - 1 - r;
        assert v in held || v in [];
        var i :| 0 <= i < nOps && held[i] == v;
        SheetCellOfHeld(nOps - 1 - i, b, nOps, nRigs);
        assert SheetCell(nOps - 1 - i, b, nOps, nRigs) == r;
      }
    } else {
      var v :| 0 <= v < nRigs && v !in held && v !in [];
      assert !SomebodyOn(nRigs - 1 - v, b, nOps, nRigs) by {
        forall j | 0 <= j < nOps ensures SheetCell(j, b, nOps, nRigs) != nRigs - 1 - v {
          SheetCellOfHeld(j, b, nOps, nRigs);
          assert held[nOps - 1 - j] in held;
        }
      }
    }
  }

  // -------------------------------------------------------- turn lengths

  /** The last block at or before b in which operator i stood off; negative before its first. */
  function LastOff(i: int, b: int, n: int): int
    requires n > 1
  {
    i + ((b - i) / n) * n
  }

  lemma OffBlockIff(i: int, c: int, n: int)
    requires n > 1 && 0 <= i < n
    ensures c % n == i <==> (c - i) % n == 0
  {
    if c % n == i {
      assert c - i == (c / n) * n + 0;
      DivisionIsUnique(c - i, n, c / n, 0);
    }
    if (c - i) % n == 0 {
      assert c == ((c - i) / n) * n + i;
      DivisionIsUnique(c, n, (c - i) / n, i);
    }
  }

  lemma WithinOneCycle(d: int, c: int, n: int)
    requires n > 1 && (d / n) * n < c < (d / n) * n + n
    ensures c / n == d / n && c % n != 0
  {
    DivisionIsUnique(c, n, d / n, c - (d / n) * n);
  }

  /** A turn on a rig is one whole on-run of one operator: it runs between two of that operator's
      off blocks n apart, so it is n - 1 blocks (the number of rigs) on one and the same rig; cut
      short only where the shift starts or ends inside it. */
  lemma HoldTurnIsOneOnRun(i: int, b: nat, n: int)
    requires n > 1 && 0 <= i < n && b % n != i
    ensures var s := LastOff(i, b, n);
            && s < b < s + n && s % n == i && (s + n) % n == i
            && (forall c :: s < c < s + n ==> c % n != i && ClosedRig(i, c, n) == ClosedRig(i, b, n))
  {
    var d, s := b - i, LastOff(i, b, n);
    OffBlockIff(i, b, n);
    assert d == (d / n) * n + d % n;
    assert s % n == i by {
      DivisionIsUnique(s, n, d / n, i);
    }
    assert (s + n) % n == i by {
      assert (d / n + 1) * n == (d / n) * n + n;
      DivisionIsUnique(s + n, n, d / n + 1, i);
    }
    forall c | s < c < s + n ensures c % n != i && ClosedRig(i, c, n) == ClosedRig(i, b, n) {
      WithinOneCycle(d, c - i, n);
      OffBlockIff(i, c, n);
    }
  }

  /** The first turn of the shift on each rig is the stub: operator i, on from the first block, is off
      in block i, so the opening turns are 1, 2, ... up to the number of rigs. */
  lemma OpeningTurnsAreStubs(i: int, n: int, c: int)
    requires n > 1 && 0 < i < n && 0 <= c < i
    ensures LastOff(i, 0, n) == i - n
    ensures c % n != i && ClosedRig(i, c, n) == i - 1 && i % n == i
  {
    DivisionIsUnique(0 - i, n, -1, n - i);
    DivisionIsUnique(0, n, 0, 0);
    DivisionIsUnique(c, n, 0, c);
    DivisionIsUnique(i, n, 0, i);
    DivisionIsUnique(c - i, n, -1, n + c - i);
    FirstCell(i, n);
  }

  /** The same for the mirrored sheet: between two off blocks n apart the operator's cell stands still. */
  lemma SheetHoldsBetweenOffs(j: nat, b: nat, c: nat, n: int)
    requires n > 1 && j < n && SheetCell(j, b, n, n - 1) != OFF
    ensures var s := LastOff(n - 1 - j, b, n);
            && s < b < s + n
            && (s < c < s + n ==> SheetCell(j, c, n, n - 1) == SheetCell(j, b, n, n - 1))
            && (c == s || c == s + n ==> SheetCell(j, c, n, n - 1) == OFF)
  {
    hide *;
    SheetIsClosed(j, b, n);
    SheetIsClosed(j, c, n);
    HoldTurnIsOneOnRun(n - 1 - j, b, n);
    ClosedSheetFollows(j, b, n);
    ClosedSheetFollows(j, c, n);
  }

  lemma ClosedSheetFollows(j: nat, b: nat, n: int)
    requires n > 1 && j < n
    ensures b % n == n - 1 - j ==> ClosedSheetCell(j, b, n) == OFF
    ensures b % n != n - 1 - j ==> ClosedSheetCell(j, b, n) == n - 2 - ClosedRig(n - 1 - j, b, n)
  {
  }

  /** The opening line-up of the sheet: operator j is on rig j, and first steps off in block n - 1 - j. */
  lemma SheetOpens(j: nat, n: int)
    requires n > 1 && j < n
    ensures SheetCell(j, 0, n, n - 1) == if j == n - 1 then OFF else j
    ensures j < n - 1 ==> LastOff(n - 1 - j, 0, n) == -1 - j
  {
    hide *;
    SheetIsClosed(j, 0, n);
    ClosedSheetFollows(j, 0, n);
    DivisionIsUnique(0, n, 0, 0);
    if j < n - 1 {
      OpeningTurnsAreStubs(n - 1 - j, n, 0);
    }
  }
}
