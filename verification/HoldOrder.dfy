/** How the greedy loop deals for any crew and any number of rigs: who keeps their rig, and in what order
    the idle take the free ones. */
module HoldOrder {
  import opened HoldRotation

  /** Idle operators before operator i, not counting the one whose turn it is to stand off. */
  function IdleBefore(held: seq<int>, off: nat, i: nat): nat
    requires i <= |held|
  {
    if i == 0 then 0 else IdleBefore(held, off, i - 1) + if held[i - 1] == OFF && i - 1 != off then 1 else 0
  }

  /** Idle operators from i up to j. */
  function IdleBetween(held: seq<int>, off: nat, i: nat, j: nat): nat
    requires i <= j <= |held|
    decreases j - i
  {
    if i == j then 0 else (if held[i] == OFF && i != off then 1 else 0) + IdleBetween(held, off, i + 1, j)
  }

  lemma {:induction false} IdleSplits(held: seq<int>, off: nat, i: nat, j: nat)
    requires i <= j <= |held|
    ensures IdleBefore(held, off, j) == IdleBefore(held, off, i) + IdleBetween(held, off, i, j)
    decreases j - i
  {
    if i < j {
      IdleSplits(held, off, i + 1, j);
    }
  }

  lemma {:induction false} IdleUnchanged(held: seq<int>, other: seq<int>, off: nat, i: nat, j: nat)
    requires i <= j <= |held| == |other| && forall k :: i <= k < j ==> held[k] == other[k]
    ensures IdleBetween(held, off, i, j) == IdleBetween(other, off, i, j)
    decreases j - i
  {
    if i < j {
      IdleUnchanged(held, other, off, i + 1, j);
    }
  }

  /** The idle take the free rigs one each in order, as far as they go; the others keep what they have. */
  lemma {:induction false} HandOutByRank(held: seq<int>, free: seq<int>, off: nat, i: nat, j: nat)
    requires i <= j < |held|
    ensures var rank, after := IdleBetween(held, off, i, j), HandOut(held, free, off, i)[j];
            after == if held[j] != OFF || j == off || rank >= |free| then held[j] else free[rank]
    decreases |held| - i
  {
    if i == off || held[i] != OFF || free == [] {
      if i < j {
        HandOutByRank(held, free, off, i + 1, j);
      } else {
        BehindIsKept(held, free, off, i + 1, j);
      }
    } else {
      var next := held[i := free[0]];
      if i < j {
        HandOutByRank(next, free[1..], off, i + 1, j);
        IdleUnchanged(held, next, off, i + 1, j);
      } else {
        BehindIsKept(next, free[1..], off, i + 1, j);
      }
    }
  }

  lemma {:induction false} BehindIsKept(held: seq<int>, free: seq<int>, off: nat, i: nat, j: nat)
    requires j < i <= |held|
    ensures HandOut(held, free, off, i)[j] == held[j]
    decreases |held| - i
  {
    if i < |held| {
      if i == off || held[i] != OFF || free == [] {
        BehindIsKept(held, free, off, i + 1, j);
      } else {
        BehindIsKept(held[i := free[0]], free[1..], off, i + 1, j);
      }
    }
  }

  /** Free rigs from r on, ascending, none of them one already taken as free. */
  ghost predicate Ascends(free: seq<int>, first: seq<int>, r: int) {
    && (forall k :: 0 <= k < |free| ==> r <= free[k] && free[k] !in first)
    && (forall i, j :: 0 <= i < j < |free| ==> free[i] < free[j])
  }

  lemma OneLower(free: seq<int>, first: seq<int>, r: int)
    requires Ascends(free, first, r + 1)
    ensures Ascends(free, first, r) && (r !in first ==> Ascends([r] + free, first, r))
  {
    var more := [r] + free;
    assert forall k :: 0 < k < |more| ==> more[k] == free[k - 1];
  }

  lemma {:induction false} UntakenAscends(held: seq<int>, first: seq<int>, r: nat, nRigs: nat)
    requires r <= nRigs
    ensures Ascends(Untaken(held, first, r, nRigs), first, r)
    decreases nRigs - r
  {
    hide Ascends;
    if r < nRigs {
      UntakenAscends(held, first, r + 1, nRigs);
      OneLower(Untaken(held, first, r + 1, nRigs), first, r);
    } else {
      assert Ascends([], first, r) by { NoneAscend(first, r); }
    }
  }

  lemma NoneAscend(first: seq<int>, r: int)
    ensures Ascends([], first, r)
  {
  }

  /** The free rigs: the one put down if there is one, then the others ascending. */
  ghost predicate PutDownFirst(free: seq<int>, put: int) {
    && (put != OFF ==> |free| > 0 && free[0] == put && forall k :: 0 < k < |free| ==> free[k] != put)
    && (forall k :: 0 <= k < |free| ==> free[k] != OFF)
    && (forall i, j :: 0 <= i < j < |free| ==> free[i] == put || free[i] < free[j])
  }

  lemma FreeListIsInOrder(held: seq<int>, off: nat, nRigs: nat)
    requires off < |held|
    ensures PutDownFirst(FreeList(held, off, nRigs), held[off])
  {
    var put := held[off];
    var first := if put != OFF then [put] else [];
    UntakenAscends(StepOff(held, off), first, 0, nRigs);
    FirstThenRest(Untaken(StepOff(held, off), first, 0, nRigs), put);
  }

  lemma FirstThenRest(rest: seq<int>, put: int)
    requires Ascends(rest, if put != OFF then [put] else [], 0)
    ensures PutDownFirst((if put != OFF then [put] else []) + rest, put)
  {
    if put != OFF {
      var free := [put] + rest;
      assert put in [put];
      assert forall k :: 0 < k < |free| ==> free[k] == rest[k - 1];
    } else {
      assert [] + rest == rest;
    }
  }

  /** Whoever is on a rig keeps it, in any crew, until their own block off. */
  lemma KeepsTheRig(b: nat, nOps: nat, nRigs: nat, i: nat)
    requires i < nOps && i != b % nOps && HeldAfter(b, nOps, nRigs)[i] != OFF
    ensures HeldAfter(b + 1, nOps, nRigs)[i] == HeldAfter(b, nOps, nRigs)[i]
  {
    var held, off := HeldAfter(b, nOps, nRigs), b % nOps;
    HandOutByRank(StepOff(held, off), FreeList(held, off, nRigs), off, 0, i);
  }

  /** The rig just put down goes to the first of the idle; the other free rigs go to the next of them, lowest
      rig first; and nobody stays idle while a rig is free. */
  lemma IdleAreServedInOrder(b: nat, nOps: nat, nRigs: nat, i: nat, j: nat)
    requires i < nOps && i != b % nOps && HeldAfter(b, nOps, nRigs)[i] == OFF
    ensures var held, after, off := HeldAfter(b, nOps, nRigs), HeldAfter(b + 1, nOps, nRigs), b % nOps;
            && (IdleBefore(held, off, i) == 0 && held[off] != OFF ==> after[i] == held[off])
            && (after[i] == OFF ==> Covers(after, [], nRigs))
            && (i < j < nOps && j != off && held[j] == OFF && after[j] != OFF ==>
                  after[i] != OFF && after[j] != held[off] && (after[i] == held[off] || after[i] < after[j]))
  {
    hide HeldAfter, HandOut, FreeList, Covers, IdleBefore, IdleBetween;
    var held, off := HeldAfter(b, nOps, nRigs), b % nOps;
    var after, free := HeldAfter(b + 1, nOps, nRigs), FreeList(held, off, nRigs);
    FreeListIsInOrder(held, off, nRigs);
    SteppedIdle(held, off, i);
    DealtByRank(b, nOps, nRigs, i);
    if after[i] == OFF {
      NobodyPassedOver(b, nOps, nRigs, i);
    }
    if i < j < nOps && j != off && held[j] == OFF && after[j] != OFF {
      DealtByRank(b, nOps, nRigs, j);
      RankRises(StepOff(held, off), off, i, j);
    }
  }

  lemma DealtByRank(b: nat, nOps: nat, nRigs: nat, i: nat)
    requires i < nOps && i != b % nOps && HeldAfter(b, nOps, nRigs)[i] == OFF
    ensures var held, off := HeldAfter(b, nOps, nRigs), b % nOps;
            var rank, free := IdleBetween(StepOff(held, off), off, 0, i), FreeList(held, off, nRigs);
            HeldAfter(b + 1, nOps, nRigs)[i] == if rank < |free| then free[rank] else OFF
  {
    var held, off := HeldAfter(b, nOps, nRigs), b % nOps;
    HandOutByRank(StepOff(held, off), FreeList(held, off, nRigs), off, 0, i);
  }

  lemma SteppedIdle(held: seq<int>, off: nat, i: nat)
    requires off < |held| && i <= |held|
    ensures IdleBetween(StepOff(held, off), off, 0, i) == IdleBefore(held, off, i)
  {
    IdleSplits(StepOff(held, off), off, 0, i);
    SameIdle(held, StepOff(held, off), off, i);
  }

  lemma {:induction false} SameIdle(held: seq<int>, other: seq<int>, off: nat, i: nat)
    requires |held| == |other| && i <= |held| && forall k :: 0 <= k < |held| && k != off ==> held[k] == other[k]
    ensures IdleBefore(held, off, i) == IdleBefore(other, off, i)
  {
    if i > 0 {
      SameIdle(held, other, off, i - 1);
    }
  }

  lemma RankRises(held: seq<int>, off: nat, i: nat, j: nat)
    requires i < j <= |held| && held[i] == OFF && i != off
    ensures IdleBetween(held, off, 0, i) < IdleBetween(held, off, 0, j)
  {
    IdleSplits(held, off, 0, i);
    IdleSplits(held, off, 0, j);
    IdleSplits(held, off, i, j);
  }

  lemma NobodyPassedOver(b: nat, nOps: nat, nRigs: nat, i: nat)
    requires i < nOps && i != b % nOps && HeldAfter(b + 1, nOps, nRigs)[i] == OFF
    ensures Covers(HeldAfter(b + 1, nOps, nRigs), [], nRigs)
  {
    var held, off := HeldAfter(b, nOps, nRigs), b % nOps;
    HoldNeverDoubles(b, nOps, nRigs);
    FreeListIsSpare(held, off, nRigs);
    HandOutLeavesNoChoice(StepOff(held, off), FreeList(held, off, nRigs), off, 0, nRigs);
  }
}
