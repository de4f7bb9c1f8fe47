/** The rotation by stints: all rigs change hands together on stint boundaries, one place along the crew
    at a time. Which crews fit their rigs, and what the loop fills in when they do not. */
module StintRotation {
  import opened Arithmetic
  import HoldRotation

  const OFF := HoldRotation.OFF

  /** A remainder by no rigs is not a number: neither OFF nor any rig. */
  const NO_RIG := -2

  function RigAt(place: int, nRigs: nat): int {
    if nRigs == 0 then NO_RIG else place % nRigs
  }

  /** What the loop writes for operator i in block b. */
  function RotateCell(i: nat, b: nat, nOps: nat, nRigs: nat, stintBlocks: nat): int
    requires i < nOps && stintBlocks > 0
  {
    var off := (b / stintBlocks) % nOps;
    if i == off then OFF else RigAt((i - off - 1 + nOps) % nOps, nRigs)
  }

  /** A stint is at least a block: the desk offers no other. */
  method PlanRotate(nBlocks: nat, nOps: nat, nRigs: nat, stintBlocks: nat) returns (rows: array2<int>)
    requires stintBlocks > 0
    ensures rows.Length0 == nOps && rows.Length1 == nBlocks
    ensures forall i, b :: 0 <= i < nOps && 0 <= b < nBlocks ==>
              rows[i, b] == RotateCell(i, b, nOps, nRigs, stintBlocks)
  {
    rows := new int[nOps, nBlocks]((_, _) => OFF);
    if nOps == 0 {
      return;
    }
    for b := 0 to nBlocks
      invariant forall i, c :: 0 <= i < nOps && 0 <= c < b ==>
                  rows[i, c] == RotateCell(i, c, nOps, nRigs, stintBlocks)
    {
      var stint := b / stintBlocks;
      var offOp := stint % nOps;
      for i := 0 to nOps
        invariant forall k, c :: 0 <= k < nOps && 0 <= c < (if k < i then b + 1 else b) ==>
                    rows[k, c] == RotateCell(k, c, nOps, nRigs, stintBlocks)
      {
        rows[i, b] := if i == offOp then OFF else RigAt((i - offOp - 1 + nOps) % nOps, nRigs);
      }
    }
  }

  lemma SmallRemainder(x: int, n: int)
    requires n > 0 && -n <= x < n
    ensures (x + n) % n == if x < 0 then x + n else x
  {
    if x < 0 {
      DivisionIsUnique(x + n, n, 0, x + n);
    } else {
      DivisionIsUnique(x + n, n, 1, x);
    }
  }

  /** How many places operator i stands after the one who is off, counting round the crew. */
  function Place(i: int, off: int, nOps: int): int {
    if i - off - 1 < 0 then i - off - 1 + nOps else i - off - 1
  }

  lemma RotateByPlace(i: nat, b: nat, nOps: nat, nRigs: nat, stintBlocks: nat)
    requires i < nOps == nRigs + 1 && nRigs > 0 && stintBlocks > 0
    ensures var off := (b / stintBlocks) % nOps;
            RotateCell(i, b, nOps, nRigs, stintBlocks) == if i == off then OFF else Place(i, off, nOps)
  {
    var off := (b / stintBlocks) % nOps;
    SmallRemainder(i - off - 1, nOps);
    if i != off {
      DivisionIsUnique(Place(i, off, nOps), nRigs, 0, Place(i, off, nOps));
    }
  }

  /** Who is on a rig: the operator so many places after the one who is off. */
  function RotateHolder(r: nat, b: nat, nOps: nat, stintBlocks: nat): int
    requires nOps > 0 && stintBlocks > 0
  {
    var off := (b / stintBlocks) % nOps;
    if off + 1 + r < nOps then off + 1 + r else off + 1 + r - nOps
  }

  /** With one more operator than rigs, every rig has exactly one operator in every block. */
  lemma RotateSharesAndIdlesNothing(r: nat, b: nat, nOps: nat, nRigs: nat, stintBlocks: nat, i: nat)
    requires r < nRigs && i < nOps == nRigs + 1 && stintBlocks > 0
    ensures 0 <= RotateHolder(r, b, nOps, stintBlocks) < nOps
    ensures RotateCell(i, b, nOps, nRigs, stintBlocks) == r <==> i == RotateHolder(r, b, nOps, stintBlocks)
  {
    RotateByPlace(i, b, nOps, nRigs, stintBlocks);
  }

  ghost predicate OneHand(r: int, b: nat, nOps: nat, nRigs: nat, stintBlocks: nat)
    requires stintBlocks > 0
  {
    && (exists i :: 0 <= i < nOps && RotateCell(i, b, nOps, nRigs, stintBlocks) == r)
    && (forall i, j :: 0 <= i < j < nOps && RotateCell(i, b, nOps, nRigs, stintBlocks) == r ==>
          RotateCell(j, b, nOps, nRigs, stintBlocks) != r)
  }

  /** The operator standing a given number of places after the one who is off. */
  function AtPlace(p: int, off: int, nOps: int): int {
    if off + 1 + p < nOps then off + 1 + p else off + 1 + p - nOps
  }

  lemma CellAtPlace(p: nat, b: nat, nOps: nat, nRigs: nat, stintBlocks: nat)
    requires p + 1 < nOps && nRigs > 0 && stintBlocks > 0
    ensures var i := AtPlace(p, (b / stintBlocks) % nOps, nOps);
            && 0 <= i < nOps && i != (b / stintBlocks) % nOps
            && RotateCell(i, b, nOps, nRigs, stintBlocks) == p % nRigs
  {
    var off := (b / stintBlocks) % nOps;
    SmallRemainder(AtPlace(p, off, nOps) - off - 1, nOps);
  }

  /** With more operators than rigs nobody is needed twice: every rig has somebody in every block. */
  lemma EveryRigHasAHand(r: nat, b: nat, nOps: nat, nRigs: nat, stintBlocks: nat) returns (i: nat)
    requires r < nRigs < nOps && stintBlocks > 0
    ensures i < nOps && RotateCell(i, b, nOps, nRigs, stintBlocks) == r
  {
    CellAtPlace(r, b, nOps, nRigs, stintBlocks);
    DivisionIsUnique(r, nRigs, 0, r);
    i := AtPlace(r, (b / stintBlocks) % nOps, nOps);
  }

  lemma OneSpareFits(b: nat, nOps: nat, nRigs: nat, stintBlocks: nat, r: nat)
    requires nOps == nRigs + 1 && r < nRigs && stintBlocks > 0
    ensures OneHand(r, b, nOps, nRigs, stintBlocks)
  {
    var h := RotateHolder(r, b, nOps, stintBlocks);
    RotateSharesAndIdlesNothing(r, b, nOps, nRigs, stintBlocks, 0);
    forall i | 0 <= i < nOps
      ensures RotateCell(i, b, nOps, nRigs, stintBlocks) == r <==> i == h
    {
      RotateSharesAndIdlesNothing(r, b, nOps, nRigs, stintBlocks, i);
    }
    assert RotateCell(h, b, nOps, nRigs, stintBlocks) == r;
  }

  lemma MoreSpareShare(b: nat, nOps: nat, nRigs: nat, stintBlocks: nat)
    requires nOps > nRigs + 1 && nRigs > 0 && stintBlocks > 0
    ensures !OneHand(0, b, nOps, nRigs, stintBlocks)
  {
    var off := (b / stintBlocks) % nOps;
    CellAtPlace(0, b, nOps, nRigs, stintBlocks);
    CellAtPlace(nRigs, b, nOps, nRigs, stintBlocks);
    DivisionIsUnique(0, nRigs, 0, 0);
    DivisionIsUnique(nRigs, nRigs, 1, 0);
    assert AtPlace(0, off, nOps) != AtPlace(nRigs, off, nOps);
  }

  lemma FewerHandsIdle(b: nat, nOps: nat, nRigs: nat, stintBlocks: nat)
    requires 0 < nOps <= nRigs && stintBlocks > 0
    ensures !OneHand(nOps - 1, b, nOps, nRigs, stintBlocks)
  {
    forall i | 0 <= i < nOps ensures RotateCell(i, b, nOps, nRigs, stintBlocks) != nOps - 1 {
      FewerHandsReachLess(i, b, nOps, nRigs, stintBlocks);
    }
  }

  /** The rotation puts exactly one operator on every rig exactly when there is one more operator
      than rigs: with fewer a rig idles, with more two share one. */
  lemma RotateFitsIffOneSpare(b: nat, nOps: nat, nRigs: nat, stintBlocks: nat)
    requires nOps > 0 && nRigs > 0 && stintBlocks > 0
    ensures (forall r :: 0 <= r < nRigs ==> OneHand(r, b, nOps, nRigs, stintBlocks)) <==> nOps == nRigs + 1
  {
    if nOps == nRigs + 1 {
      forall r | 0 <= r < nRigs ensures OneHand(r, b, nOps, nRigs, stintBlocks) {
        OneSpareFits(b, nOps, nRigs, stintBlocks, r);
      }
    } else if nOps <= nRigs {
      FewerHandsIdle(b, nOps, nRigs, stintBlocks);
    } else {
      MoreSpareShare(b, nOps, nRigs, stintBlocks);
    }
  }

  lemma FewerHandsReachLess(i: nat, b: nat, nOps: nat, nRigs: nat, stintBlocks: nat)
    requires i < nOps <= nRigs && stintBlocks > 0
    ensures RotateCell(i, b, nOps, nRigs, stintBlocks) < nOps - 1 || nOps == 1
    ensures nOps == 1 ==> RotateCell(i, b, nOps, nRigs, stintBlocks) == OFF
  {
    var off := (b / stintBlocks) % nOps;
    SmallRemainder(i - off - 1, nOps);
    if i != off {
      DivisionIsUnique(Place(i, off, nOps), nRigs, 0, Place(i, off, nOps));
    }
  }

  lemma NextOff(b: nat, nOps: nat, stintBlocks: nat)
    requires nOps > 1 && stintBlocks > 0
    ensures var off, next := (b / stintBlocks) % nOps, ((b + stintBlocks) / stintBlocks) % nOps;
            next == if off == nOps - 1 then 0 else off + 1
  {
    var q, off := b / stintBlocks, (b / stintBlocks) % nOps;
    DivisionIsUnique(b + stintBlocks, stintBlocks, q + 1, b % stintBlocks);
    var r := if off == nOps - 1 then 0 else off + 1;
    DivisionIsUnique(q + 1, nOps, if off == nOps - 1 then q / nOps + 1 else q / nOps, r);
  }

  /** With one spare operator, everybody moves one rig down at each stint: from the first rig off, and from off
      to the last. */
  lemma RotateWalksTheRigs(i: nat, b: nat, nOps: nat, nRigs: nat, stintBlocks: nat)
    requires i < nOps == nRigs + 1 && nRigs > 0 && stintBlocks > 0
    ensures var now, next := RotateCell(i, b, nOps, nRigs, stintBlocks),
                             RotateCell(i, b + stintBlocks, nOps, nRigs, stintBlocks);
            next == if now == OFF then nRigs - 1 else if now == 0 then OFF else now - 1
  {
    RotateByPlace(i, b, nOps, nRigs, stintBlocks);
    RotateByPlace(i, b + stintBlocks, nOps, nRigs, stintBlocks);
    NextOff(b, nOps, stintBlocks);
  }

  /** And stays where it is within a stint; the shift opens with operator i on rig i - 1 and the first one off. */
  lemma RotateStaysForTheStint(i: nat, b: nat, c: nat, nOps: nat, nRigs: nat, stintBlocks: nat)
    requires i < nOps == nRigs + 1 && nRigs > 0 && stintBlocks > 0
    ensures b / stintBlocks == c / stintBlocks ==>
              RotateCell(i, b, nOps, nRigs, stintBlocks) == RotateCell(i, c, nOps, nRigs, stintBlocks)
    ensures RotateCell(i, 0, nOps, nRigs, stintBlocks) == if i == 0 then OFF else i - 1
  {
    RotateByPlace(i, 0, nOps, nRigs, stintBlocks);
    DivisionIsUnique(0, stintBlocks, 0, 0);
    DivisionIsUnique(0, nOps, 0, 0);
  }
}
