/** The turns a built plan really produces on each rig, for one more operator than rigs. */
module FloorTurns {
  import opened Arithmetic
  import opened HolderRuns
  import opened OffTime
  import opened Plans
  import HoldRotation
  import StintRotation

  /** In every block this rig has a holder, and the hold sheet puts exactly that operator on it. */
  ghost predicate HoldHolders(holders: seq<int>, r: int, n: int) {
    n > 1 && forall b :: 0 <= b < |holders| ==>
      0 <= holders[b] < n && HoldRotation.SheetCell(holders[b], b, n, n - 1) == r
  }

  ghost predicate RotateHolders(holders: seq<int>, r: int, n: int, S: int) {
    n > 1 && S > 0 && 0 <= r < n - 1 && forall b :: 0 <= b < |holders| ==>
      holders[b] == StintRotation.RotateHolder(r, b, n, S)
  }

  lemma HoldPlanHolders(p: PlannedGroup, g: Group, nBlocks: nat, stintBlocks: nat, blockMin: int, r: nat)
    requires PlannedFrom(p, g, Hold, nBlocks, stintBlocks, blockMin)
    requires |g.ops| == |g.rigs| + 1 && r < |g.rigs|
    ensures Rectangular(p.rows, nBlocks)
    ensures HoldHolders(Holders(p.rows, r, nBlocks), r, |g.ops|)
  {
    hide HoldRotation.SheetCell;
    var n, holders := |g.ops|, Holders(p.rows, r, nBlocks);
    forall b | 0 <= b < nBlocks
      ensures 0 <= holders[b] < n && HoldRotation.SheetCell(holders[b], b, n, n - 1) == r
    {
      HoldRotation.SheetIdlesNothingIff(b, n, n - 1);
      assert HoldRotation.SomebodyOn(r, b, n, n - 1);
      var j :| 0 <= j < n && HoldRotation.SheetCell(j, b, n, n - 1) == r;
      CellOfPlan(p, g, Hold, nBlocks, stintBlocks, blockMin, j, b, r);
      var who := HolderAt(p.rows, r, b);
      CellOfPlan(p, g, Hold, nBlocks, stintBlocks, blockMin, who, b, r);
    }
  }

  lemma RotatePlanHolders(p: PlannedGroup, g: Group, nBlocks: nat, stintBlocks: nat, blockMin: int, r: nat)
    requires stintBlocks > 0 && PlannedFrom(p, g, Rotate, nBlocks, stintBlocks, blockMin)
    requires |g.ops| == |g.rigs| + 1 && r < |g.rigs|
    ensures Rectangular(p.rows, nBlocks)
    ensures RotateHolders(Holders(p.rows, r, nBlocks), r, |g.ops|, stintBlocks)
  {
    var n, holders := |g.ops|, Holders(p.rows, r, nBlocks);
    forall b | 0 <= b < nBlocks ensures holders[b] == StintRotation.RotateHolder(r, b, n, stintBlocks) {
      var h := StintRotation.RotateHolder(r, b, n, stintBlocks);
      StintRotation.RotateSharesAndIdlesNothing(r, b, n, n - 1, stintBlocks, 0);
      StintRotation.RotateSharesAndIdlesNothing(r, b, n, n - 1, stintBlocks, h);
      CellOfPlan(p, g, Rotate, nBlocks, stintBlocks, blockMin, h, b, r);
      var who := HolderAt(p.rows, r, b);
      CellOfPlan(p, g, Rotate, nBlocks, stintBlocks, blockMin, who, b, r);
      StintRotation.RotateSharesAndIdlesNothing(r, b, n, n - 1, stintBlocks, who);
    }
  }

  /** In either rotation, with more operators than rigs, somebody holds every rig in every block. */
  lemma AlwaysHeld(p: PlannedGroup, g: Group, mode: Mode, nBlocks: nat, stintBlocks: nat, blockMin: int, r: nat)
    requires mode == Rotate ==> stintBlocks > 0
    requires PlannedFrom(p, g, mode, nBlocks, stintBlocks, blockMin) && r < |g.rigs| < |g.ops|
    ensures Rectangular(p.rows, nBlocks)
    ensures forall b :: 0 <= b < nBlocks ==> 0 <= Holders(p.rows, r, nBlocks)[b] < |p.rows|
  {
    hide HoldRotation.SheetCell, StintRotation.RotateCell;
    var nOps, nRigs := |g.ops|, |g.rigs|;
    forall b | 0 <= b < nBlocks ensures 0 <= Holders(p.rows, r, nBlocks)[b] < |p.rows| {
      var j: nat;
      if mode == Hold {
        HoldRotation.SheetIdlesNothingIff(b, nOps, nRigs);
        assert HoldRotation.SomebodyOn(r, b, nOps, nRigs);
        j :| 0 <= j < nOps && HoldRotation.SheetCell(j, b, nOps, nRigs) == r;
      } else {
        j := StintRotation.EveryRigHasAHand(r, b, nOps, nRigs, stintBlocks);
      }
      CellOfPlan(p, g, mode, nBlocks, stintBlocks, blockMin, j, b, r);
    }
  }

  // ----------------------------------------------------------- hold turns

  /** Inside one on-run the holder of the rig does not change; at its two ends it does. */
  lemma OnRunHolds(holders: seq<int>, r: int, n: int, b: nat, c: nat)
    requires HoldHolders(holders, r, n) && b < |holders| && c < |holders| && r >= 0
    ensures 0 <= holders[b] < n
    ensures var s := HoldRotation.LastOff(n - 1 - holders[b], b, n);
            && s < b < s + n
            && (s < c < s + n ==> holders[c] == holders[b])
            && (c == s || c == s + n ==> holders[c] != holders[b])
  {
    hide HoldRotation.SheetCell, HoldRotation.LastOff;
    var j := holders[b];
    HoldRotation.SheetHoldsBetweenOffs(j, b, c, n);
    HoldRotation.SheetSharesNothing(c, n, n - 1, j, holders[c]);
  }

  /** A turn of the payload is an operator's on-run, clipped to the shift. */
  lemma HoldSpan(holders: seq<int>, r: int, n: int, span: Span, s: int)
    requires HoldHolders(holders, r, n) && r >= 0 && SpanOk(holders, span)
    requires span.first > 0 ==> holders[span.first - 1] != holders[span.first]
    requires s == HoldRotation.LastOff(n - 1 - holders[span.first], span.first, n)
    ensures span.first == if s + 1 < 0 then 0 else s + 1
    ensures span.last == if s + n - 1 >= |holders| then |holders| - 1 else s + n - 1
  {
    hide HoldRotation.SheetCell, HoldRotation.LastOff;
    var b := span.first;
    OnRunHolds(holders, r, n, b, b);
    if b > 0 {
      OnRunHolds(holders, r, n, b, b - 1);
    }
    OnRunHolds(holders, r, n, b, span.last);
    if span.last + 1 < |holders| {
      OnRunHolds(holders, r, n, b, span.last + 1);
    }
    if s + n <= span.last {
      OnRunHolds(holders, r, n, b, s + n);
    }
  }

  /** Interior turns on every rig last exactly as many blocks as there are rigs; no turn is longer. */
  lemma HoldInteriorTurns(holders: seq<int>, r: int, n: int, k: nat)
    requires HoldHolders(holders, r, n) && r >= 0 && k < |Spans(holders, 0)|
    ensures var len := Lengths(Spans(holders, 0))[k];
            && 1 <= len <= n - 1
            && (0 < k < |Spans(holders, 0)| - 1 ==> len == n - 1)
  {
    hide HoldRotation.SheetCell, HoldRotation.LastOff;
    var spans := Spans(holders, 0);
    SpanIsMaximal(holders, k);
    LengthAt(spans, k);
    var span := spans[k];
    var s := HoldRotation.LastOff(n - 1 - holders[span.first], span.first, n);
    HoldSpan(holders, r, n, span, s);
    OnRunHolds(holders, r, n, span.first, span.first);
  }

  /** The opening turns are the stubs a crew change forces: rig r opens with n - 1 - r blocks, so the
      rigs open with 1, 2, ... up to the number of rigs. */
  lemma HoldOpeningTurn(holders: seq<int>, r: int, n: int)
    requires HoldHolders(holders, r, n) && r >= 0 && |Spans(holders, 0)| > 1
    ensures r < n - 1 && holders[0] == r
    ensures Lengths(Spans(holders, 0))[0] == n - 1 - r
  {
    hide HoldRotation.SheetCell, HoldRotation.LastOff;
    var spans := Spans(holders, 0);
    SpanIsMaximal(holders, 0);
    LengthAt(spans, 0);
    HoldRotation.SheetOpens(holders[0], n);
    HoldSpan(holders, r, n, spans[0], HoldRotation.LastOff(n - 1 - holders[0], 0, n));
  }

  /** A shift of more than two full turns has turns between its first and its last. */
  lemma LongShiftHasInterior(holders: seq<int>, r: int, n: int)
    requires HoldHolders(holders, r, n) && r >= 0 && |holders| > 2 * (n - 1)
    ensures |Spans(holders, 0)| > 2
  {
    hide HoldRotation.SheetCell;
    var spans := Spans(holders, 0);
    SpansTile(holders, 0);
    LengthAt(spans, 0);
    HoldInteriorTurns(holders, r, n, 0);
    if |spans| == 2 {
      LengthAt(spans, 1);
      HoldInteriorTurns(holders, r, n, 1);
    }
  }

  // --------------------------------------------------------- rotate turns

  /** In rotate, hands change exactly on stint boundaries. */
  lemma RotateChangesPerStint(holders: seq<int>, r: int, n: int, S: int)
    requires RotateHolders(holders, r, n, S) && |holders| % S == 0
    ensures PerStint(holders, S)
  {
    forall b | 0 < b < |holders| ensures b % S == 0 <==> holders[b] != holders[b - 1] {
      NextBlockNextStint(b, S);
      NeighboursDiffer(b / S, n);
    }
  }
}
