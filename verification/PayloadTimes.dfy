/** The times a rig is sent: each turn's length against its ends, and the shift's own header against the
    turns. */
module PayloadTimes {
  import opened Arithmetic
  import opened FloorTurns
  import opened HolderRuns
  import opened OffTime
  import opened Options
  import opened Plans
  import opened RigPayloads
  import HoldRotation
  import StintRotation

  /** Minutes from one time of the day to the next that reads so. */
  function Later(from: int, to: int): int {
    if to > from then to - from else to - from + DAY
  }

  lemma LaterIs(start: nat, a: nat, z: nat)
    requires start < DAY && a < z < DAY
    ensures Later((start + a) % DAY, (start + z) % DAY) == z - a
  {
    MinuteOf(start + a);
    MinuteOf(start + z);
  }

  lemma MinutesOfTurn(pay: Payload, p: PlannedGroup, start: nat, blockMin: nat, holders: seq<int>, k: nat)
    requires Describes(pay, p, start, blockMin, holders) && k < |pay.turns|
    ensures k < |Spans(holders, 0)|
    ensures pay.turns[k].minutes == (Spans(holders, 0)[k].last - Spans(holders, 0)[k].first + 1) * blockMin
  {
    hide Hhmm, Spans, Destination, NameOf, PersonOf;
  }

  lemma FaceLength(start: nat, a: nat, z: nat)
    requires start < DAY && a < z < DAY
    ensures Later(ToMin(Hhmm((start + a) % DAY)), ToMin(Hhmm((start + z) % DAY))) == z - a
  {
    hide Hhmm, ToMin;
    LaterIs(start, a, z);
    ClockRoundTrip((start + a) % DAY);
    ClockRoundTrip((start + z) % DAY);
  }

  lemma SpanInMinutes(s: Span, N: nat, blockMin: nat)
    requires s.first <= s.last < N && 0 < blockMin && N * blockMin < DAY
    ensures s.first * blockMin < (s.last + 1) * blockMin < DAY
    ensures (s.last - s.first + 1) * blockMin == (s.last + 1) * blockMin - s.first * blockMin
  {
    NoSmallerMultiple(s.last + 1, N, blockMin);
    NoSmallerMultiple(s.first + 1, s.last + 1, blockMin);
    NextMultiple(s.first, blockMin);
  }

  /** A turn lasts as long as from its own start to its own end, across midnight too. */
  lemma TurnLastsItsTimes(pay: Payload, p: PlannedGroup, start: nat, blockMin: nat, holders: seq<int>, k: nat)
    requires Describes(pay, p, start, blockMin, holders) && Readable(pay.turns) && k < |pay.turns|
    ensures pay.turns[k].minutes == Later(ToMin(pay.turns[k].from), ToMin(pay.turns[k].to)) > 0
  {
    hide Hhmm, ToMin, Spans, TurnsOf, Later;
    MinutesOfTurn(pay, p, start, blockMin, holders, k);
    TurnRuns(pay.turns, p, start, blockMin, holders, k);
    var s := Spans(holders, 0)[k];
    SpanInMinutes(s, |holders|, blockMin);
    FaceLength(start, s.first * blockMin, (s.last + 1) * blockMin);
  }

  // ------------------------------------------------------------ the header

  /** The header reads back as the shift asked for, ends eight hours after it starts, and names the shift. */
  ghost predicate HeaderIs(h: ShiftInfo, cfg: Config) {
    && h.name == cfg.shift.name && h.date == cfg.date && h.tz == cfg.tz
    && |h.start| == 5 && |h.end| == 5 && ToMin(h.start) == cfg.shift.start
    && Later(ToMin(h.start), ToMin(h.end)) == SHIFT_MINUTES
  }

  lemma BuiltHeader(plan: Plan, cfg: Config, groups: seq<Group>, gi: nat, ri: nat, pay: Payload)
    requires Askable(cfg) && Built(plan, cfg, groups) && gi < |groups| && cfg.shift.start < DAY
    requires RowsFit(plan) && plan.groups[gi].group == groups[gi] && ri < |groups[gi].rigs|
    requires PayloadFor(plan, gi, ri, pay)
    ensures HeaderIs(pay.shift, cfg)
  {
    hide Hhmm, ToMin, Spans, TurnsOf, PlannedFrom;
    var start := cfg.shift.start;
    ClockRoundTrip(start);
    ClockRoundTrip((start + SHIFT_MINUTES) % DAY);
    LaterIs(start, 0, SHIFT_MINUTES);
    MinuteOf(start);
  }

  lemma EndsOfTurns(pay: Payload, p: PlannedGroup, start: nat, blockMin: nat, holders: seq<int>)
    requires Describes(pay, p, start, blockMin, holders) && holders != []
    ensures |pay.turns| > 0 && pay.turns[0].from == Hhmm(start)
    ensures pay.turns[|pay.turns| - 1].to == Hhmm((start + |holders| * blockMin) % DAY)
  {
    hide Hhmm, Spans, TurnsOf;
    assert |pay.turns| == |Spans(holders, 0)| by { TurnPerRun(pay, p, start, blockMin, holders); }
    SpansTile(holders, 0);
    var last := |pay.turns| - 1;
    SpanIsMaximal(holders, 0);
    SpanIsMaximal(holders, last);
    TurnRuns(pay.turns, p, start, blockMin, holders, 0);
    TurnRuns(pay.turns, p, start, blockMin, holders, last);
    MinuteOf(start);
  }

  lemma TurnPerRun(pay: Payload, p: PlannedGroup, start: nat, blockMin: nat, holders: seq<int>)
    requires Describes(pay, p, start, blockMin, holders)
    ensures |pay.turns| == |Spans(holders, 0)|
  {
  }

  lemma SameFace(start: nat, x: nat, y: nat)
    requires start < DAY && x < DAY && y < DAY
    ensures Hhmm((start + x) % DAY) == Hhmm((start + y) % DAY) <==> x == y
  {
    hide Hhmm, ToMin;
    ClockRoundTrip((start + x) % DAY);
    ClockRoundTrip((start + y) % DAY);
    MinuteOf(start + x);
    MinuteOf(start + y);
  }

  /** The header's window, read the way a turn's is. */
  predicate InWindow(h: ShiftInfo, at: real)
    requires |h.start| == 5 && |h.end| == 5
  {
    Inside(Turn(h.start, h.end, 0, Sitter("", 0, None, None), None, EndOfShift), Wrap(at))
  }

  lemma WindowIsTheShift(h: ShiftInfo, start: nat, at: real)
    requires start < DAY && h.start == Hhmm(start) && h.end == Hhmm((start + SHIFT_MINUTES) % DAY)
    ensures InWindow(h, at) <==> IntoShift(start, at) < SHIFT_MINUTES as real
  {
    hide Hhmm, ToMin, Wrap, Inside;
    MinuteOf(start);
    InsideIffIntoTurn(Turn(h.start, h.end, 0, Sitter("", 0, None, None), None, EndOfShift), start, 0, SHIFT_MINUTES,
                      at);
  }

  lemma BlockOfTime(rel: real, blockMin: nat) returns (c: nat)
    requires blockMin > 0 && rel >= 0.0
    ensures BlockAt(c, blockMin) <= rel < BlockAt(c + 1, blockMin)
  {
    c := rel.Floor / blockMin;
    assert rel.Floor == c * blockMin + rel.Floor % blockMin;
    NextMultiple(c, blockMin);
  }

  /** Of a rig of a built plan whose group has more operators than rigs: the header names the shift, starts
      with the first turn and ends eight hours later, with the last turn exactly when the block divides the
      shift; and then somebody is on exactly at the moments the header's window covers. */
  lemma HeaderMatchesTheTurns(plan: Plan, cfg: Config, groups: seq<Group>, gi: nat, ri: nat, pay: Payload, at: real)
    requires Askable(cfg) && Built(plan, cfg, groups) && gi < |groups| && cfg.shift.start < DAY
    requires ri < |groups[gi].rigs| < |groups[gi].ops|
    requires RowsFit(plan) && plan.groups[gi].group == groups[gi] && PayloadFor(plan, gi, ri, pay)
    ensures HeaderIs(pay.shift, cfg) && Readable(pay.turns)
    ensures plan.nBlocks > 0 ==>
              && |pay.turns| > 0 && pay.turns[0].from == pay.shift.start
              && (pay.turns[|pay.turns| - 1].to == pay.shift.end <==> SHIFT_MINUTES % cfg.blockMin == 0)
    ensures SHIFT_MINUTES % cfg.blockMin == 0 ==> (WhoIsOn(pay, at).Some? <==> InWindow(pay.shift, at))
  {
    hide Hhmm, ToMin, Spans, TurnsOf, PlannedFrom, Holders, WhoIsOn, InWindow, IntoShift, BlockAt, HeaderIs;
    var p, start := plan.groups[gi], cfg.shift.start;
    var holders := Holders(p.rows, ri, plan.nBlocks);
    BuiltHeader(plan, cfg, groups, gi, ri, pay);
    BuiltHolders(plan, cfg, groups, gi, ri);
    BuiltIsDescribed(plan, cfg, groups, gi, ri, pay);
    HoldersSize(p.rows, ri, plan.nBlocks);
    ShiftFitsTheDay(cfg.blockMin);
    RoundingIsExactIff(cfg.blockMin);
    if plan.nBlocks > 0 {
      EndsOfTurns(pay, p, start, cfg.blockMin, holders);
      SameFace(start, plan.nBlocks * cfg.blockMin, SHIFT_MINUTES);
    }
    if SHIFT_MINUTES % cfg.blockMin == 0 {
      WindowIsTheShift(pay.shift, start, at);
      SomebodyInTheShift(pay, p, start, cfg.blockMin, holders, at);
    }
  }

  lemma SomebodyInTheShift(pay: Payload, p: PlannedGroup, start: nat, blockMin: nat, holders: seq<int>, at: real)
    requires Describes(pay, p, start, blockMin, holders) && Readable(pay.turns) && |p.rows| == |p.group.ops|
    requires forall b :: 0 <= b < |holders| ==> 0 <= holders[b]
    ensures WhoIsOn(pay, at).Some? <==> IntoShift(start, at) < (|holders| * blockMin) as real
  {
    hide WhoIsOn, TurnsOf, RunEnd;
    var rel := IntoShift(start, at);
    assert rel >= 0.0;
    var c := BlockOfTime(rel, blockMin);
    DescribedReadsBack(pay, p, start, blockMin, holders, at, c);
    if c < |holders| {
      NoSmallerMultiple(c + 1, |holders|, blockMin);
    } else {
      NoSmallerMultiple(|holders|, c, blockMin);
    }
  }

  // -------------------------------------------------- where they go next

  /** With one more operator than rigs, an operator whose row names a rig is the one holding it. */
  lemma RowNamesTheHolder(p: PlannedGroup, g: Group, mode: Mode, N: nat, stintBlocks: nat, blockMin: int, who: nat,
                          b: nat, r: int)
    requires mode == Rotate ==> stintBlocks > 0
    requires PlannedFrom(p, g, mode, N, stintBlocks, blockMin) && |g.ops| == |g.rigs| + 1
    requires g.rigs != [] && who < |g.ops| && b < N && p.rows[who][b] == On(r)
    ensures Rectangular(p.rows, N) && 0 <= r < |g.rigs| && Holders(p.rows, r, N)[b] == who
  {
    hide HoldRotation.SheetCell, StintRotation.RotateCell;
    var n, m := |g.ops|, |g.rigs|;
    CellIsARig(p, g, mode, N, stintBlocks, blockMin, who, b, r);
    CellOfPlan(p, g, mode, N, stintBlocks, blockMin, who, b, r);
    var other := HolderAt(p.rows, r, b);
    CellOfPlan(p, g, mode, N, stintBlocks, blockMin, other, b, r);
    if mode == Hold {
      HoldRotation.SheetSharesNothing(b, n, m, who, other);
    } else {
      StintRotation.RotateSharesAndIdlesNothing(r, b, n, m, stintBlocks, who);
      StintRotation.RotateSharesAndIdlesNothing(r, b, n, m, stintBlocks, other);
    }
  }

  lemma CellIsARig(p: PlannedGroup, g: Group, mode: Mode, N: nat, stintBlocks: nat, blockMin: int, who: nat, b: nat,
                   r: int)
    requires mode == Rotate ==> stintBlocks > 0
    requires PlannedFrom(p, g, mode, N, stintBlocks, blockMin) && |g.ops| == |g.rigs| + 1
    requires g.rigs != [] && who < |g.ops| && b < N && p.rows[who][b] == On(r)
    ensures 0 <= r < |g.rigs|
  {
    hide HoldRotation.SheetCell;
    assert IsLabelled(p.rows[who], RawRow(mode, who, N, |g.ops|, |g.rigs|, stintBlocks));
    if mode == Hold {
      HoldRotation.SheetSharesNothing(b, |g.ops|, |g.rigs|, who, who);
    }
  }

  /** After a turn the operator is where the turn says, in either rotation with one spare operator: on the rig
      named, as that rig's own holder in the next block; or resting, on no rig. Only a turn that runs to the
      end of the shift says the shift is over. */
  lemma TheyGoWhereTheTurnSays(p: PlannedGroup, g: Group, mode: Mode, N: nat, stintBlocks: nat, blockMin: nat,
                               start: nat, r: nat, s: Span)
    requires mode == Rotate ==> stintBlocks > 0
    requires PlannedFrom(p, g, mode, N, stintBlocks, blockMin) && |g.ops| == |g.rigs| + 1 && r < |g.rigs|
    ensures Rectangular(p.rows, N)
    ensures var holders := Holders(p.rows, r, N);
            s.first <= s.last < N ==>
              && 0 <= holders[s.last] < |p.rows|
              && (forall b :: 0 <= b < N ==> holders[b] < |p.rows|)
              && match TurnOf(p, start, blockMin, holders, s).theyGoTo
                 case EndOfShift => s.last + 1 == N
                 case ToRig(id) =>
                   && s.last + 1 < N
                   && exists other :: 0 <= other < |g.rigs| && g.rigs[other] == id
                                      && Holders(p.rows, other, N)[s.last + 1] == holders[s.last]
                 case rest =>
                   && s.last + 1 < N
                   && p.rows[holders[s.last]][s.last + 1] == (if rest == ToBreak then Break else Think)
                   && forall other :: 0 <= other < |g.rigs| ==>
                        Holders(p.rows, other, N)[s.last + 1] != holders[s.last]
  {
    hide HoldRotation.SheetCell, StintRotation.RotateCell, Hhmm;
    AlwaysHeld(p, g, mode, N, stintBlocks, blockMin, r);
    var holders := Holders(p.rows, r, N);
    if s.first <= s.last && s.last + 1 < N {
      var who, next := holders[s.last], s.last + 1;
      if p.rows[who][next].On? {
        RowNamesTheHolder(p, g, mode, N, stintBlocks, blockMin, who, next, p.rows[who][next].rig);
      }
    }
  }
}
