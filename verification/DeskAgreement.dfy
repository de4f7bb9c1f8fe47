/** The payloads of one group agree with each other: what the board works out from them is what the
    plan says, and the two countdowns at a change of hands are the same number. */
module DeskAgreement {
  import opened Arithmetic
  import opened DeskBoard
  import opened FloorTurns
  import opened HolderRuns
  import opened OffTime
  import opened Options
  import opened Plans
  import opened RigPayloads
  import HoldRotation

  /** A group planned in hold mode with one more operator than rigs, and distinct names. */
  ghost predicate HoldGroup(p: PlannedGroup, N: nat, stintBlocks: nat, blockMin: nat) {
    && |p.group.ops| == |p.group.rigs| + 1 > 1 && PlannedFrom(p, p.group, Hold, N, stintBlocks, blockMin)
    && (forall i :: 0 <= i < |p.group.ops| ==> p.group.ops[i].name.Some? && p.group.ops[i].name.value != "")
    && (forall i, j :: 0 <= i < j < |p.group.ops| ==> p.group.ops[i].name != p.group.ops[j].name)
  }

  /** The k-th payload on the board is of rig ri[k]; every rig of the group is there. */
  ghost predicate Boarded(rigs: seq<Payload>, ri: seq<nat>, p: PlannedGroup, N: nat, start: nat, blockMin: nat)
    requires Rectangular(p.rows, N)
  {
    && |rigs| == |ri|
    && (forall r :: 0 <= r < |p.group.rigs| ==> r in ri)
    && (forall k :: 0 <= k < |ri| ==> OneRig(rigs[k], ri[k], p, N, start, blockMin))
  }

  ghost predicate OneRig(pay: Payload, r: nat, p: PlannedGroup, N: nat, start: nat, blockMin: nat)
    requires Rectangular(p.rows, N)
  {
    && r < |p.group.rigs| && pay.rigId == p.group.rigs[r]
    && HoldHolders(Holders(p.rows, r, N), r, |p.group.ops|)
    && Describes(pay, p, start, blockMin, Holders(p.rows, r, N))
  }

  function NameOfOp(p: PlannedGroup, j: int): Option<string> {
    NameOf(p.group.ops, j)
  }

  /** Where the sheet has operator j in block b. */
  function Place(p: PlannedGroup, j: nat, b: nat): int
    requires j < |p.group.ops|
  {
    HoldRotation.SheetCell(j, b, |p.group.ops|, |p.group.ops| - 1)
  }

  /** The operator standing off in a block. */
  function OffOp(c: nat, n: nat): nat
    requires n > 0
  {
    n - 1 - c % n
  }

  // -------------------------------------------------------------- one turn

  /** Turn m on a rig says this about the run it was made from. */
  ghost predicate Reads(c: Call, s: Span, holders: seq<int>, p: PlannedGroup, start: nat, blockMin: nat)
    requires Rectangular(p.rows, |holders|) && s.first <= s.last < |holders| && |c.turn.from| == |c.turn.to| == 5
  {
    && StartRel(c, start) == s.first * blockMin && EndRel(c, start) == (s.last + 1) * blockMin
    && c.turn.operator.name == NameOfOp(p, holders[s.last])
    && 0 <= holders[s.last] < |p.rows|
    && c.turn.theyGoTo == if s.last + 1 < |holders| then Destination(p.rows[holders[s.last]][s.last + 1], p.group.rigs)
                          else EndOfShift
  }

  lemma RelOfStart(start: nat, x: nat)
    requires start < DAY && x < DAY
    ensures RelOf(start, ToMin(Hhmm((start + x) % DAY))) == x
  {
    hide Hhmm, ToMin;
    ClockRoundTrip((start + x) % DAY);
    MinuteOf(start + x);
  }

  lemma TurnReads(pay: Payload, r: nat, p: PlannedGroup, N: nat, start: nat, blockMin: nat, m: nat)
    requires Rectangular(p.rows, N) && |p.rows| == |p.group.ops| && OneRig(pay, r, p, N, start, blockMin)
    requires m < |pay.turns|
    ensures var holders := Holders(p.rows, r, N);
            && m < |Spans(holders, 0)| && SpanOk(holders, Spans(holders, 0)[m])
            && |pay.turns[m].from| == |pay.turns[m].to| == 5
            && Reads(Call(pay.rigId, pay.turns[m]), Spans(holders, 0)[m], holders, p, start, blockMin)
  {
    hide Hhmm, ToMin, RelOf, Spans, Holders, HoldRotation.SheetCell;
    var holders := Holders(p.rows, r, N);
    SpanIsMaximal(holders, m);
    var s := Spans(holders, 0)[m];
    NoSmallerMultiple(s.last + 1, |holders|, blockMin);
    NoSmallerMultiple(s.first, s.last + 1, blockMin);
    RelOfStart(start, s.first * blockMin);
    RelOfStart(start, (s.last + 1) * blockMin);
  }

  // ------------------------------------------------------ every turn called

  lemma CallOf(rigs: seq<Payload>, i: nat) returns (k: nat, m: nat)
    requires i < |Calls(rigs)|
    ensures k < |rigs| && m < |rigs[k].turns| && Calls(rigs)[i] == Call(rigs[k].rigId, rigs[k].turns[m])
  {
    var init := rigs[..|rigs| - 1];
    if i < |Calls(init)| {
      k, m := CallOf(init, i);
    } else {
      k, m := |rigs| - 1, i - |Calls(init)|;
    }
  }

  lemma CallAt(rigs: seq<Payload>, k: nat, m: nat) returns (i: nat)
    requires k < |rigs| && m < |rigs[k].turns|
    ensures i < |Calls(rigs)| && Calls(rigs)[i] == Call(rigs[k].rigId, rigs[k].turns[m])
  {
    var init := rigs[..|rigs| - 1];
    if k < |rigs| - 1 {
      i := CallAt(init, k, m);
    } else {
      i := |Calls(init)| + m;
    }
  }

  /** Where one operator's call comes from: a run of theirs on the rig the sheet has them on. */
  ghost predicate RunOf(c: Call, j: nat, r: int, s: Span, p: PlannedGroup, N: nat, start: nat, blockMin: nat)
    requires Rectangular(p.rows, N) && |p.rows| == |p.group.ops| > 1
  {
    && |c.turn.from| == |c.turn.to| == 5 && j < |p.group.ops|
    && 0 <= r < |p.group.rigs| && c.rigId == p.group.rigs[r]
    && s.first <= s.last < N
    && (forall b :: s.first <= b <= s.last ==> Place(p, j, b) == r)
    && StartRel(c, start) == s.first * blockMin && EndRel(c, start) == (s.last + 1) * blockMin
    && c.turn.operator.name == NameOfOp(p, j)
    && c.turn.theyGoTo == if s.last + 1 < N then Destination(p.rows[j][s.last + 1], p.group.rigs) else EndOfShift
  }

  lemma NamesTell(p: PlannedGroup, N: nat, stintBlocks: nat, blockMin: nat, i: int, j: nat)
    requires HoldGroup(p, N, stintBlocks, blockMin) && 0 <= i < |p.group.ops| && j < |p.group.ops|
    ensures NameOfOp(p, i) == NameOfOp(p, j) <==> i == j
  {
  }

  lemma HoldersLength(p: PlannedGroup, r: nat, N: nat)
    requires Rectangular(p.rows, N)
    ensures |Holders(p.rows, r, N)| == N
  {
  }

  lemma HolderIs(p: PlannedGroup, N: nat, r: nat, j: nat, b: nat)
    requires Rectangular(p.rows, N) && b < N && j < |p.group.ops|
    requires HoldHolders(Holders(p.rows, r, N), r, |p.group.ops|)
    ensures |Holders(p.rows, r, N)| == N
    ensures Holders(p.rows, r, N)[b] == j <==> Place(p, j, b) == r
  {
    hide HoldRotation.SheetCell;
    var n := |p.group.ops|;
    HoldersLength(p, r, N);
    HoldRotation.SheetSharesNothing(b, n, n - 1, j, Holders(p.rows, r, N)[b]);
  }

  /** A turn whose run is held by j throughout is j's run on this rig. */
  lemma TurnIsRun(pay: Payload, r: nat, p: PlannedGroup, N: nat, start: nat, blockMin: nat, m: nat, j: nat)
    requires Rectangular(p.rows, N) && |p.rows| == |p.group.ops| > 1 && OneRig(pay, r, p, N, start, blockMin)
    requires m < |pay.turns| && j < |p.group.ops| && m < |Spans(Holders(p.rows, r, N), 0)|
    requires Spans(Holders(p.rows, r, N), 0)[m].last < |Holders(p.rows, r, N)|
    requires Holders(p.rows, r, N)[Spans(Holders(p.rows, r, N), 0)[m].last] == j
    ensures RunOf(Call(pay.rigId, pay.turns[m]), j, r, Spans(Holders(p.rows, r, N), 0)[m], p, N, start, blockMin)
  {
    hide RelOf, ToMin, Spans, Place, Holders, Describes, Destination;
    TurnReads(pay, r, p, N, start, blockMin, m);
    var holders := Holders(p.rows, r, N);
    HoldersLength(p, r, N);
    var s := Spans(holders, 0)[m];
    forall b | s.first <= b <= s.last ensures Place(p, j, b) == r {
      assert holders[b] == holders[s.first] == holders[s.last];
      HolderIs(p, N, r, j, b);
    }
  }

  lemma CallIsRun(rigs: seq<Payload>, ri: seq<nat>, p: PlannedGroup, N: nat, start: nat, stintBlocks: nat,
                  blockMin: nat, j: nat, i: nat)
    returns (r: int, s: Span)
    requires HoldGroup(p, N, stintBlocks, blockMin) && Rectangular(p.rows, N)
    requires Boarded(rigs, ri, p, N, start, blockMin)
    requires |p.rows| == |p.group.ops|
    requires j < |p.group.ops| && i < |Calls(rigs)| && Calls(rigs)[i].turn.operator.name == NameOfOp(p, j)
    ensures RunOf(Calls(rigs)[i], j, r, s, p, N, start, blockMin)
  {
    hide RelOf, ToMin, Spans, Place, Calls, Describes, Holders, PlannedFrom, HoldHolders, RunOf;
    var k, m := CallOf(rigs, i);
    assert OneRig(rigs[k], ri[k], p, N, start, blockMin);
    TurnReads(rigs[k], ri[k], p, N, start, blockMin, m);
    var holders := Holders(p.rows, ri[k], N);
    r, s := ri[k], Spans(holders, 0)[m];
    NamesTell(p, N, stintBlocks, blockMin, holders[s.last], j);
    TurnIsRun(rigs[k], ri[k], p, N, start, blockMin, m, j);
  }

  /** And the run an operator is in at a block is called. */
  lemma RunIsCalled(rigs: seq<Payload>, ri: seq<nat>, p: PlannedGroup, N: nat, start: nat, blockMin: nat, j: nat,
                    b: nat)
    returns (i: nat, s: Span)
    requires Rectangular(p.rows, N) && Boarded(rigs, ri, p, N, start, blockMin)
    requires j < |p.group.ops| && b < N && |p.rows| == |p.group.ops| == |p.group.rigs| + 1 > 1
    requires Place(p, j, b) != HoldRotation.OFF
    ensures i < |Calls(rigs)| && s.first <= b <= s.last
    ensures RunOf(Calls(rigs)[i], j, Place(p, j, b), s, p, N, start, blockMin)
  {
    hide RelOf, ToMin, Spans, Calls, Describes, Holders, HoldHolders, RunOf, HoldRotation.SheetCell;
    var n := |p.group.ops|;
    var r := Place(p, j, b);
    HoldRotation.SheetSharesNothing(b, n, n - 1, j, j);
    assert r in ri;
    var k :| 0 <= k < |ri| && ri[k] == r;
    assert OneRig(rigs[k], r, p, N, start, blockMin);
    var holders := Holders(p.rows, r, N);
    HolderIs(p, N, r, j, b);
    var m := SpanAt(holders, b);
    s := Spans(holders, 0)[m];
    assert m < |rigs[k].turns| by { TurnPerSpan(rigs[k], r, p, N, start, blockMin); }
    TurnIsRun(rigs[k], r, p, N, start, blockMin, m, j);
    i := CallAt(rigs, k, m);
  }

  lemma SpanAt(holders: seq<int>, b: nat) returns (m: nat)
    requires b < |holders|
    ensures m < |Spans(holders, 0)| && Spans(holders, 0)[m].first <= b <= Spans(holders, 0)[m].last < |holders|
    ensures holders[Spans(holders, 0)[m].last] == holders[b]
  {
    SpansTile(holders, 0);
    m := SpanOfBlock(Spans(holders, 0), holders, b, 0);
    SpanIsMaximal(holders, m);
  }

  lemma TurnPerSpan(pay: Payload, r: nat, p: PlannedGroup, N: nat, start: nat, blockMin: nat)
    requires Rectangular(p.rows, N) && OneRig(pay, r, p, N, start, blockMin)
    ensures |pay.turns| == |Spans(Holders(p.rows, r, N), 0)|
  {
  }

  // --------------------------------------------------------------- who is on

  lemma AbsoluteIs(start: nat, rel: nat)
    requires start < DAY && rel < DAY
    ensures IntoShift(start, Absolute(start, rel) as real) == rel as real
  {
    MinuteOf(start + rel);
    if start + rel < DAY {
      WrapIs(rel as real, rel as real, 0);
    } else {
      WrapIs(rel as real - 1440.0, rel as real, -1);
    }
  }

  /** Block c of the shift is the one in progress. */
  ghost predicate InBlock(c: nat, N: nat, start: nat, blockMin: nat, atRel: nat) {
    c < N && start < DAY && 0 < blockMin && N * blockMin < DAY && c * blockMin <= atRel < (c + 1) * blockMin
  }

  lemma MomentOfBlock(c: nat, N: nat, start: nat, blockMin: nat, atRel: nat)
    requires InBlock(c, N, start, blockMin, atRel)
    ensures atRel < DAY
    ensures (c * blockMin) as real <= IntoShift(start, Absolute(start, atRel) as real) == atRel as real
    ensures IntoShift(start, Absolute(start, atRel) as real) < ((c + 1) * blockMin) as real
  {
    NoSmallerMultiple(c + 1, N, blockMin);
    AbsoluteIs(start, atRel);
  }

  /** On one rig: the holder's name, and how long until the run ends. */
  lemma RigShows(pay: Payload, r: nat, p: PlannedGroup, N: nat, start: nat, blockMin: nat, c: nat, atRel: nat)
    requires Rectangular(p.rows, N) && OneRig(pay, r, p, N, start, blockMin) && Readable(pay.turns)
    requires InBlock(c, N, start, blockMin, atRel)
    ensures |Holders(p.rows, r, N)| == N
    ensures var w, holders := WhoIsOn(pay, Absolute(start, atRel) as real), Holders(p.rows, r, N);
            && w.Some? && w.value.turn.operator.name == NameOfOp(p, holders[c])
            && w.value.minutesLeft == ((RunEnd(holders, c) + 1) * blockMin - atRel) as real
  {
    hide WhoIsOn, IntoShift, Absolute, Describes, Holders, RunEnd, HoldHolders;
    HoldersLength(p, r, N);
    MomentOfBlock(c, N, start, blockMin, atRel);
    WhoIsOnReadsThePlan(pay, p, start, blockMin, Holders(p.rows, r, N), Absolute(start, atRel) as real, c);
  }

  /** By the payloads, an operator is on a rig exactly when the sheet has them on one. */
  lemma OnIffPlaced(rigs: seq<Payload>, ri: seq<nat>, p: PlannedGroup, N: nat, start: nat, stintBlocks: nat,
                    blockMin: nat, c: nat, atRel: nat, j: nat)
    requires HoldGroup(p, N, stintBlocks, blockMin) && Rectangular(p.rows, N)
    requires Boarded(rigs, ri, p, N, start, blockMin)
    requires InBlock(c, N, start, blockMin, atRel) && j < |p.group.ops| && AllReadable(rigs)
    ensures OnNow(rigs, Absolute(start, atRel) as real, NameOfOp(p, j).value) <==> Place(p, j, c) != HoldRotation.OFF
  {
    hide WhoIsOn, Absolute, Describes, Holders, RunEnd, HoldRotation.SheetCell, Readable, PlannedFrom;
    var at, name := Absolute(start, atRel) as real, NameOfOp(p, j).value;
    forall k | 0 <= k < |rigs| ensures OnRigNow(rigs[k], at, name) <==> Place(p, j, c) == ri[k] {
      assert OneRig(rigs[k], ri[k], p, N, start, blockMin);
      RigShows(rigs[k], ri[k], p, N, start, blockMin, c, atRel);
      HolderIs(p, N, ri[k], j, c);
      NamesTell(p, N, stintBlocks, blockMin, Holders(p.rows, ri[k], N)[c], j);
    }
    var n := |p.group.ops|;
    HoldRotation.SheetSharesNothing(c, n, n - 1, j, j);
    if Place(p, j, c) != HoldRotation.OFF {
      assert Place(p, j, c) in ri;
      var k :| 0 <= k < |ri| && ri[k] == Place(p, j, c);
      assert OnRigNow(rigs[k], at, name);
    }
  }

  // -------------------------------------------------- the off operator's call

  lemma OffOnce(p: PlannedGroup, N: nat, stintBlocks: nat, blockMin: nat, c: nat, j: nat)
    requires HoldGroup(p, N, stintBlocks, blockMin) && j < |p.group.ops|
    ensures OffOp(c, |p.group.ops|) < |p.group.ops|
    ensures Place(p, j, c) == HoldRotation.OFF <==> j == OffOp(c, |p.group.ops|)
  {
    hide PlannedFrom, HoldRotation.SheetCell;
    HoldRotation.SheetIsClosed(j, c, |p.group.ops|);
  }

  /** The off operator's label in a block is what the sheet calls it: break or think. */
  lemma OffCellIsRest(p: PlannedGroup, N: nat, stintBlocks: nat, blockMin: nat, c: nat, j: nat)
    requires HoldGroup(p, N, stintBlocks, blockMin) && Rectangular(p.rows, N) && |p.rows| == |p.group.ops|
    requires c < N && j < |p.group.ops|
    ensures p.rows[j][c].On? <==> Place(p, j, c) != HoldRotation.OFF
  {
    hide HoldRotation.SheetCell, RunsStarted;
    assert IsLabelled(p.rows[j], RawRow(Hold, j, N, |p.group.ops|, |p.group.rigs|, stintBlocks));
  }

  /** Off for one block only, and on before and after it. */
  lemma NeighboursOfOff(p: PlannedGroup, N: nat, stintBlocks: nat, blockMin: nat, c: nat)
    requires HoldGroup(p, N, stintBlocks, blockMin)
    ensures OffOp(c, |p.group.ops|) < |p.group.ops|
    ensures Place(p, OffOp(c, |p.group.ops|), c + 1) != HoldRotation.OFF
    ensures c > 0 ==> Place(p, OffOp(c, |p.group.ops|), c - 1) != HoldRotation.OFF
  {
    hide PlannedFrom, Place;
    var n, j := |p.group.ops|, OffOp(c, |p.group.ops|);
    OffOnce(p, N, stintBlocks, blockMin, c + 1, j);
    NeighboursDiffer(c + 1, n);
    NeighboursDiffer(c, n);
    if c > 0 {
      OffOnce(p, N, stintBlocks, blockMin, c - 1, j);
    }
  }

  /** Every call of the off operator is of a run before block c or after it. */
  lemma RunsMissOff(c0: Call, j: nat, r: int, s: Span, p: PlannedGroup, N: nat, start: nat, blockMin: nat, c: nat,
                    atRel: nat)
    requires Rectangular(p.rows, N) && |p.rows| == |p.group.ops| > 1 && RunOf(c0, j, r, s, p, N, start, blockMin)
    requires InBlock(c, N, start, blockMin, atRel) && Place(p, j, c) == HoldRotation.OFF
    ensures s.last < c || c < s.first
    ensures StartRel(c0, start) > atRel <==> c < s.first
    ensures EndRel(c0, start) <= atRel <==> s.last < c
    ensures s.first >= c + 1 ==> StartRel(c0, start) >= (c + 1) * blockMin
    ensures s.first == c + 1 <==> StartRel(c0, start) == (c + 1) * blockMin
    ensures s.last + 1 <= c ==> EndRel(c0, start) <= c * blockMin
    ensures s.last + 1 == c <==> EndRel(c0, start) == c * blockMin
  {
    hide Place, StartRel, EndRel, Destination;
    if s.first <= c <= s.last {
      assert false;
    }
    Multiples(s.first, c + 1, blockMin);
    Multiples(s.first, c, blockMin);
    Multiples(s.last + 1, c, blockMin);
    Multiples(s.last + 1, c + 1, blockMin);
  }

  lemma Multiples(a: int, b: int, S: int)
    requires S > 0
    ensures a <= b <==> a * S <= b * S
    ensures a == b <==> a * S == b * S
  {
    if a <= b {
      NoSmallerMultiple(a, b, S);
    }
    if b <= a {
      NoSmallerMultiple(b, a, S);
    }
    assert (a - b) * S == a * S - b * S;
    if a < b {
      NoSmallerMultiple(a + 1, b, S);
    } else if b < a {
      NoSmallerMultiple(b + 1, a, S);
    }
  }

  // --------------------------------------------------------- the agreement

  /** What is known about a group on the board, at one minute of its shift. */
  ghost predicate Watched(rigs: seq<Payload>, ri: seq<nat>, p: PlannedGroup, N: nat, start: nat, stintBlocks: nat,
                          blockMin: nat, c: nat, atRel: nat) {
    && HoldGroup(p, N, stintBlocks, blockMin) && Rectangular(p.rows, N) && Boarded(rigs, ri, p, N, start, blockMin)
    && |p.rows| == |p.group.ops| && InBlock(c, N, start, blockMin, atRel)
    && AllReadable(rigs) && CallsReadable(Calls(rigs))
  }

  lemma BackAgrees(rigs: seq<Payload>, ri: seq<nat>, p: PlannedGroup, N: nat, start: nat, stintBlocks: nat,
                   blockMin: nat, c: nat, atRel: nat, j: nat, off: Off)
    requires Watched(rigs, ri, p, N, start, stintBlocks, blockMin, c, atRel) && j == OffOp(c, |p.group.ops|)
    requires NameOfOp(p, j) == Some(off.name) && BackIs(Calls(rigs), off.name, start, atRel, off)
    ensures c + 1 < N ==> off.backRel == Some((c + 1) * blockMin)
                          && 0 <= Place(p, j, c + 1) < |p.group.rigs|
                          && off.backTo == Some(p.group.rigs[Place(p, j, c + 1)])
    ensures c + 1 == N ==> off.backRel == None && off.backTo == None
  {
    hide StartRel, EndRel, Calls, Boarded, HoldGroup, Place, OffOp;
    OffOnce(p, N, stintBlocks, blockMin, c, j);
    GroupIsPlanned(p, N, stintBlocks, blockMin);
    if off.backRel.Some? {
      var i :| IsSoonest(Calls(rigs), i, off.name, start, atRel) && off.backRel.value == StartRel(Calls(rigs)[i], start)
        && off.backTo == Some(Calls(rigs)[i].rigId) && off.backAt == Some(Calls(rigs)[i].turn.from);
      var r, s := CallIsRun(rigs, ri, p, N, start, stintBlocks, blockMin, j, i);
      RunsMissOff(Calls(rigs)[i], j, r, s, p, N, start, blockMin, c, atRel);
      assert c + 1 <= s.first < N;
      if s.first == c + 1 {
        assert Place(p, j, c + 1) == r;
      }
    }
    if c + 1 < N {
      NeighboursOfOff(p, N, stintBlocks, blockMin, c);
      var i, s := RunIsCalled(rigs, ri, p, N, start, blockMin, j, c + 1);
      RunsMissOff(Calls(rigs)[i], j, Place(p, j, c + 1), s, p, N, start, blockMin, c, atRel);
      assert StillToCome(Calls(rigs)[i], off.name, start, atRel);
    }
  }

  lemma GroupIsPlanned(p: PlannedGroup, N: nat, stintBlocks: nat, blockMin: nat)
    requires HoldGroup(p, N, stintBlocks, blockMin)
    ensures |p.rows| == |p.group.ops| == |p.group.rigs| + 1 > 1 && Rectangular(p.rows, N)
    ensures forall j :: 0 <= j < |p.group.ops| ==> NameOfOp(p, j).Some? && NameOfOp(p, j).value != ""
  {
  }

  lemma KindAgrees(rigs: seq<Payload>, ri: seq<nat>, p: PlannedGroup, N: nat, start: nat, stintBlocks: nat,
                   blockMin: nat, c: nat, atRel: nat, j: nat, name: string, kind: Option<GoesTo>, endedRel: int)
    requires Watched(rigs, ri, p, N, start, stintBlocks, blockMin, c, atRel) && j == OffOp(c, |p.group.ops|)
    requires NameOfOp(p, j) == Some(name) && KindIs(Calls(rigs), name, start, atRel, kind, endedRel)
    ensures c == 0 ==> kind == None
    ensures c > 0 ==> !p.rows[j][c].On? && kind == Some(if p.rows[j][c] == Break then ToBreak else ToThink)
  {
    hide StartRel, EndRel, Calls, Boarded, HoldGroup, Place, OffOp;
    OffOnce(p, N, stintBlocks, blockMin, c, j);
    OffCellIsRest(p, N, stintBlocks, blockMin, c, j);
    GroupIsPlanned(p, N, stintBlocks, blockMin);
    if c > 0 {
      NeighboursOfOff(p, N, stintBlocks, blockMin, c);
      var i, s := RunIsCalled(rigs, ri, p, N, start, blockMin, j, c - 1);
      RunsMissOff(Calls(rigs)[i], j, Place(p, j, c - 1), s, p, N, start, blockMin, c, atRel);
      assert EndedInRest(Calls(rigs)[i], name, start, atRel);
    }
    if kind.Some? {
      var i :| IsLatest(Calls(rigs), i, name, start, atRel) && endedRel == EndRel(Calls(rigs)[i], start)
        && kind.value == Calls(rigs)[i].turn.theyGoTo;
      var r, s := CallIsRun(rigs, ri, p, N, start, stintBlocks, blockMin, j, i);
      RunsMissOff(Calls(rigs)[i], j, r, s, p, N, start, blockMin, c, atRel);
      assert s.last + 1 <= c;
    }
  }

  lemma NamesCalled(rigs: seq<Payload>, ri: seq<nat>, p: PlannedGroup, N: nat, start: nat, stintBlocks: nat,
                    blockMin: nat, c: nat, atRel: nat, name: string)
    requires Watched(rigs, ri, p, N, start, stintBlocks, blockMin, c, atRel) && Called(Calls(rigs), name)
    ensures exists j :: 0 <= j < |p.group.ops| && NameOfOp(p, j) == Some(name)
  {
    hide StartRel, EndRel, Calls, HoldGroup, Place, Reads, Holders, Spans;
    var i :| 0 <= i < |Calls(rigs)| && Named(Calls(rigs)[i].turn, name);
    var k, m := CallOf(rigs, i);
    assert OneRig(rigs[k], ri[k], p, N, start, blockMin);
    TurnReads(rigs[k], ri[k], p, N, start, blockMin, m);
    HolderNamed(Call(rigs[k].rigId, rigs[k].turns[m]), Spans(Holders(p.rows, ri[k], N), 0)[m],
                Holders(p.rows, ri[k], N), p, start, blockMin);
  }

  lemma HolderNamed(c: Call, s: Span, holders: seq<int>, p: PlannedGroup, start: nat, blockMin: nat)
    requires Rectangular(p.rows, |holders|) && s.first <= s.last < |holders| && |c.turn.from| == |c.turn.to| == 5
    requires |p.rows| == |p.group.ops| && Reads(c, s, holders, p, start, blockMin)
    ensures exists j :: 0 <= j < |p.group.ops| && NameOfOp(p, j) == c.turn.operator.name
  {
    assert NameOfOp(p, holders[s.last]) == c.turn.operator.name;
  }

  /** Whoever the payloads call and nobody shows on a rig is the operator the sheet has off. */
  lemma OffIsTheOffOp(rigs: seq<Payload>, ri: seq<nat>, p: PlannedGroup, N: nat, start: nat, stintBlocks: nat,
                      blockMin: nat, c: nat, atRel: nat, name: string)
    requires Watched(rigs, ri, p, N, start, stintBlocks, blockMin, c, atRel) && IsOff(rigs, start, atRel, name)
    ensures NameOfOp(p, OffOp(c, |p.group.ops|)) == Some(name)
  {
    hide Calls, HoldGroup, Place, Boarded, OnNow, OffOp, InBlock;
    NamesCalled(rigs, ri, p, N, start, stintBlocks, blockMin, c, atRel, name);
    var j :| 0 <= j < |p.group.ops| && NameOfOp(p, j) == Some(name);
    OnIffPlaced(rigs, ri, p, N, start, stintBlocks, blockMin, c, atRel, j);
    OffOnce(p, N, stintBlocks, blockMin, c, j);
  }

  /** Somebody is off on the board exactly when the shift has a second block. */
  lemma SomebodyIsOff(rigs: seq<Payload>, ri: seq<nat>, p: PlannedGroup, N: nat, start: nat, stintBlocks: nat,
                      blockMin: nat, c: nat, atRel: nat)
    requires Watched(rigs, ri, p, N, start, stintBlocks, blockMin, c, atRel)
    ensures OffOp(c, |p.group.ops|) < |p.group.ops| && NameOfOp(p, OffOp(c, |p.group.ops|)).Some?
    ensures IsOff(rigs, start, atRel, NameOfOp(p, OffOp(c, |p.group.ops|)).value) <==> N > 1
  {
    hide Calls, HoldGroup, Place, Boarded, OnNow, OffOp, StartRel, EndRel;
    GroupIsPlanned(p, N, stintBlocks, blockMin);
    var j := OffOp(c, |p.group.ops|);
    OffOnce(p, N, stintBlocks, blockMin, c, 0);
    OffOnce(p, N, stintBlocks, blockMin, c, j);
    OnIffPlaced(rigs, ri, p, N, start, stintBlocks, blockMin, c, atRel, j);
    var name := NameOfOp(p, j).value;
    if N > 1 {
      NeighboursOfOff(p, N, stintBlocks, blockMin, c);
      var b := if c + 1 < N then c + 1 else c - 1;
      var i, s := RunIsCalled(rigs, ri, p, N, start, blockMin, j, b);
      assert Named(Calls(rigs)[i].turn, name);
    } else if Called(Calls(rigs), name) {
      var i :| 0 <= i < |Calls(rigs)| && Named(Calls(rigs)[i].turn, name);
      var r, s := CallIsRun(rigs, ri, p, N, start, stintBlocks, blockMin, j, i);
      RunsMissOff(Calls(rigs)[i], j, r, s, p, N, start, blockMin, c, atRel);
      assert false;
    }
  }

  /** The operator the sheet has off, doing what the sheet calls it (nothing is said in the opening block),
      going next to the rig the sheet gives them in the next block, at the moment that block starts;
      nowhere in the last block. */
  ghost predicate Tells(o: Off, p: PlannedGroup, N: nat, blockMin: nat, c: nat) {
    && 0 < |p.group.ops| == |p.rows| && Rectangular(p.rows, N) && c < N
    && var j := OffOp(c, |p.group.ops|);
       && j < |p.group.ops| && Some(o.name) == NameOfOp(p, j)
       && o.kind == (if c == 0 then None else Some(if p.rows[j][c] == Break then ToBreak else ToThink))
       && (c + 1 < N ==> 0 <= Place(p, j, c + 1) < |p.group.rigs|)
       && o.backTo == (if c + 1 < N then Some(p.group.rigs[Place(p, j, c + 1)]) else None)
       && o.backRel == if c + 1 < N then Some((c + 1) * blockMin) else None
  }

  lemma WatchedBoardTells(rigs: seq<Payload>, ri: seq<nat>, p: PlannedGroup, N: nat, start: nat, stintBlocks: nat,
                          blockMin: nat, c: nat, atRel: nat, off: Option<Off>)
    requires Watched(rigs, ri, p, N, start, stintBlocks, blockMin, c, atRel) && Answers(rigs, start, atRel, off)
    ensures off.Some? <==> N > 1
    ensures off.Some? ==> Tells(off.value, p, N, blockMin, c)
  {
    hide Calls, HoldGroup, Place, Boarded, OnNow, OffOp, BackIs, KindIs, InBlock;
    SomebodyIsOff(rigs, ri, p, N, start, stintBlocks, blockMin, c, atRel);
    assert c < N by { hide *; BlockIsInShift(c, N, start, blockMin, atRel, rigs, ri, p, stintBlocks); }
    if off.Some? {
      var o := off.value;
      OffIsTheOffOp(rigs, ri, p, N, start, stintBlocks, blockMin, c, atRel, o.name);
      BackAgrees(rigs, ri, p, N, start, stintBlocks, blockMin, c, atRel, OffOp(c, |p.group.ops|), o);
      var endedRel :| KindIs(Calls(rigs), o.name, start, atRel, o.kind, endedRel);
      KindAgrees(rigs, ri, p, N, start, stintBlocks, blockMin, c, atRel, OffOp(c, |p.group.ops|), o.name, o.kind,
                 endedRel);
    }
  }

  lemma BlockIsInShift(c: nat, N: nat, start: nat, blockMin: nat, atRel: nat, rigs: seq<Payload>, ri: seq<nat>,
                       p: PlannedGroup, stintBlocks: nat)
    requires Watched(rigs, ri, p, N, start, stintBlocks, blockMin, c, atRel)
    ensures c < N
  {
  }

  /** The rig the off operator walks to is held by somebody whose turn ends with the block. */
  lemma WatchedCountdown(pay: Payload, p: PlannedGroup, N: nat, start: nat, stintBlocks: nat, blockMin: nat,
                         c: nat, atRel: nat)
    requires HoldGroup(p, N, stintBlocks, blockMin) && Rectangular(p.rows, N) && c + 1 < N
    requires InBlock(c, N, start, blockMin, atRel) && OffOp(c, |p.group.ops|) < |p.group.ops|
    requires 0 <= Place(p, OffOp(c, |p.group.ops|), c + 1)
    requires OneRig(pay, Place(p, OffOp(c, |p.group.ops|), c + 1), p, N, start, blockMin) && Readable(pay.turns)
    ensures var w := WhoIsOn(pay, Absolute(start, atRel) as real);
            w.Some? && w.value.minutesLeft == ((c + 1) * blockMin - atRel) as real
  {
    hide WhoIsOn, Holders, Place, OffOp, PlannedFrom, Describes;
    var j := OffOp(c, |p.group.ops|);
    var r := Place(p, j, c + 1);
    var holders := Holders(p.rows, r, N);
    RigShows(pay, r, p, N, start, blockMin, c, atRel);
    OffOnce(p, N, stintBlocks, blockMin, c, j);
    HolderIs(p, N, r, j, c);
    HolderIs(p, N, r, j, c + 1);
    RunEndIs(holders, c, c);
  }

  // ------------------------------------------------------------- built plans

  /** The payloads of one group of a plan, one of each of its rigs, in the group's order. */
  ghost predicate GroupPushed(plan: Plan, gi: nat, rigs: seq<Payload>) {
    && plan.config.blockMin > 0 && gi < |plan.groups| && RowsFit(plan)
    && |rigs| == |plan.groups[gi].group.rigs|
    && forall r :: 0 <= r < |rigs| ==> PayloadFor(plan, gi, r, rigs[r])
  }

  ghost predicate NamedApart(g: Group) {
    && (forall i :: 0 <= i < |g.ops| ==> g.ops[i].name.Some? && g.ops[i].name.value != "")
    && (forall i, j :: 0 <= i < j < |g.ops| ==> g.ops[i].name != g.ops[j].name)
  }

  /** A built hold plan: one more operator than rigs in this group, all named and named apart. */
  ghost predicate HoldPlan(plan: Plan, cfg: Config, groups: seq<Group>, gi: nat) {
    && Askable(cfg) && Built(plan, cfg, groups) && cfg.mode == Hold && cfg.shift.start < DAY
    && gi < |groups| && |groups[gi].ops| == |groups[gi].rigs| + 1 > 1 && NamedApart(groups[gi])
  }

  lemma BuiltIsOneRig(plan: Plan, cfg: Config, groups: seq<Group>, gi: nat, rigs: seq<Payload>, r: nat)
    requires HoldPlan(plan, cfg, groups, gi) && GroupPushed(plan, gi, rigs) && r < |rigs|
    ensures plan.groups[gi].group == groups[gi]
    ensures OneRig(rigs[r], r, plan.groups[gi], plan.nBlocks, cfg.shift.start, cfg.blockMin) && Readable(rigs[r].turns)
  {
    hide Describes, HoldHolders, TurnsOf, NamedApart;
    BuiltFits(plan, cfg, groups);
    assert PlannedFrom(plan.groups[gi], groups[gi], Hold, plan.nBlocks, cfg.stintBlocks, cfg.blockMin);
    HoldPlanHolders(plan.groups[gi], groups[gi], plan.nBlocks, cfg.stintBlocks, cfg.blockMin, r);
    BuiltIsDescribed(plan, cfg, groups, gi, r, rigs[r]);
  }

  function Numbers(n: nat): (r: seq<nat>)
    ensures |r| == n && forall k :: 0 <= k < n ==> r[k] == k
  {
    seq(n, i requires 0 <= i < n => i)
  }

  lemma BuiltIsBoarded(plan: Plan, cfg: Config, groups: seq<Group>, gi: nat, rigs: seq<Payload>)
    requires HoldPlan(plan, cfg, groups, gi) && GroupPushed(plan, gi, rigs)
    ensures AllReadable(rigs) && plan.groups[gi].group == groups[gi] && Rectangular(plan.groups[gi].rows, plan.nBlocks)
    ensures Boarded(rigs, Numbers(|rigs|), plan.groups[gi], plan.nBlocks, cfg.shift.start, cfg.blockMin)
  {
    hide OneRig, PayloadFor, PlannedFrom, NamedApart, Readable;
    BuiltFits(plan, cfg, groups);
    var p, ri := plan.groups[gi], Numbers(|rigs|);
    forall k | 0 <= k < |rigs|
      ensures OneRig(rigs[k], ri[k], p, plan.nBlocks, cfg.shift.start, cfg.blockMin) && Readable(rigs[k].turns)
    {
      BuiltIsOneRig(plan, cfg, groups, gi, rigs, k);
    }
    forall r | 0 <= r < |p.group.rigs| ensures r in ri {
      assert ri[r] == r;
    }
  }

  /** The board over a built plan is watched, at every minute of its shift. */
  lemma BuiltIsWatched(plan: Plan, cfg: Config, groups: seq<Group>, gi: nat, rigs: seq<Payload>, c: nat, atRel: nat)
    requires HoldPlan(plan, cfg, groups, gi) && GroupPushed(plan, gi, rigs)
    requires c < plan.nBlocks && c * cfg.blockMin <= atRel < (c + 1) * cfg.blockMin
    ensures gi < |plan.groups|
    ensures Watched(rigs, Numbers(|rigs|), plan.groups[gi], plan.nBlocks, cfg.shift.start, cfg.stintBlocks,
                    cfg.blockMin, c, atRel)
  {
    hide Boarded, OneRig, PayloadFor, Readable, Calls;
    BuiltIsBoarded(plan, cfg, groups, gi, rigs);
    ShiftFitsTheDay(cfg.blockMin);
    CallsAreReadable(rigs);
    BuiltFits(plan, cfg, groups);
    assert PlannedFrom(plan.groups[gi], groups[gi], Hold, plan.nBlocks, cfg.stintBlocks, cfg.blockMin);
  }

  /** Of the payloads of a built hold plan, at every minute of its shift, the board says what the plan says;
      and that nobody is off exactly when the shift is a single block. */
  lemma BoardTellsThePlan(plan: Plan, cfg: Config, groups: seq<Group>, gi: nat, rigs: seq<Payload>, c: nat, atRel: nat,
                          off: Option<Off>)
    requires HoldPlan(plan, cfg, groups, gi) && GroupPushed(plan, gi, rigs)
    requires c < plan.nBlocks && c * cfg.blockMin <= atRel < (c + 1) * cfg.blockMin
    ensures AllReadable(rigs) && CallsReadable(Calls(rigs)) && gi < |plan.groups|
    ensures Answers(rigs, cfg.shift.start, atRel, off) ==>
              && (off.Some? <==> plan.nBlocks > 1)
              && (off.Some? ==> Tells(off.value, plan.groups[gi], plan.nBlocks, cfg.blockMin, c))
  {
    hide Boarded, PayloadFor, Readable, Calls, HoldGroup, Answers, Tells, HoldPlan, GroupPushed;
    BuiltIsWatched(plan, cfg, groups, gi, rigs, c, atRel);
    if Answers(rigs, cfg.shift.start, atRel, off) {
      WatchedBoardTells(rigs, Numbers(|rigs|), plan.groups[gi], plan.nBlocks, cfg.shift.start, cfg.stintBlocks,
                        cfg.blockMin, c, atRel, off);
    }
  }

  /** Both countdowns at a change of hands are one number: on the rig that the operator who is off walks to
      when the next block starts, the turn in progress has exactly as long to run. */
  lemma CountdownsAgree(plan: Plan, cfg: Config, groups: seq<Group>, gi: nat, rigs: seq<Payload>, c: nat, atRel: nat)
    returns (next: nat)
    requires HoldPlan(plan, cfg, groups, gi) && GroupPushed(plan, gi, rigs)
    requires c + 1 < plan.nBlocks && c * cfg.blockMin <= atRel < (c + 1) * cfg.blockMin
    ensures AllReadable(rigs) && OffOp(c, |groups[gi].ops|) < |plan.groups[gi].group.ops|
    ensures next == Place(plan.groups[gi], OffOp(c, |groups[gi].ops|), c + 1) < |rigs|
    ensures var w := WhoIsOn(rigs[next], Absolute(cfg.shift.start, atRel) as real);
            w.Some? && w.value.minutesLeft == ((c + 1) * cfg.blockMin - atRel) as real
  {
    hide PayloadFor, Readable, Calls, PlannedFrom, NamedApart, WhoIsOn, Place, OffOp, InBlock, OneRig;
    BuiltIsWatched(plan, cfg, groups, gi, rigs, c, atRel);
    BuiltIsBoarded(plan, cfg, groups, gi, rigs);
    var p := plan.groups[gi];
    var j := OffOp(c, |p.group.ops|);
    NeighboursOfOff(p, plan.nBlocks, cfg.stintBlocks, cfg.blockMin, c);
    PlaceIsARig(p, j, c + 1);
    next := Place(p, j, c + 1);
    BuiltIsOneRig(plan, cfg, groups, gi, rigs, next);
    WatchedCountdown(rigs[next], p, plan.nBlocks, cfg.shift.start, cfg.stintBlocks, cfg.blockMin, c, atRel);
  }

  lemma PlaceIsARig(p: PlannedGroup, j: nat, b: nat)
    requires j < |p.group.ops|
    ensures HoldRotation.OFF <= Place(p, j, b) < |p.group.ops| - 1
  {
    HoldRotation.SheetSharesNothing(b, |p.group.ops|, |p.group.ops| - 1, j, j);
  }
}
