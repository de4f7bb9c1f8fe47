/** What a rig is sent, and how it reads it back: the turns of one rig as wall-clock times, and who
    is on at any moment of the day. */
module RigPayloads {
  import opened Arithmetic
  import opened FloorTurns
  import opened HolderRuns
  import opened OffTime
  import opened Options
  import opened Plans
  import StintRotation

  const DAY := 1440

  // ----------------------------------------------------------- wall clock

  function Digit(d: int): char
    requires 0 <= d < 10
  {
    ('0' as int + d) as char
  }

  function Pad2(x: int): (s: string)
    requires 0 <= x < 100
    ensures |s| == 2
  {
    [Digit(x / 10), Digit(x % 10)]
  }

  function DigitValue(c: char): int {
    c as int - '0' as int
  }

  /** "HH:MM", wrapping at midnight. */
  function Hhmm(mins: nat): (s: string)
    ensures |s| == 5
  {
    Pad2((mins / 60) % 24) + ":" + Pad2(mins % 60)
  }

  function ToMin(s: string): int
    requires |s| == 5
  {
    (10 * DigitValue(s[0]) + DigitValue(s[1])) * 60 + 10 * DigitValue(s[3]) + DigitValue(s[4])
  }

  /** What is written is what is read: the minute of the day. */
  lemma ClockRoundTrip(mins: nat)
    ensures ToMin(Hhmm(mins)) == mins % DAY
  {
    var h, m := (mins / 60) % 24, mins % 60;
    assert ToMin(Hhmm(mins)) == h * 60 + m;
    assert mins == (mins / 60 / 24) * DAY + (h * 60 + m);
    DivisionIsUnique(mins, DAY, mins / 60 / 24, h * 60 + m);
  }

  // -------------------------------------------------------------- payload

  datatype GoesTo = EndOfShift | ToBreak | ToThink | ToRig(rigId: string)

  // A seat is a slot of a group; the name and the person are the roster's.
  datatype Sitter = Sitter(group: string, slot: int, name: Option<string>, personId: Option<string>)

  datatype Turn = Turn(from: string, to: string, minutes: int, operator: Sitter,
                       relievedBy: Option<string>, theyGoTo: GoesTo)

  datatype ShiftInfo = ShiftInfo(name: string, date: string, start: string, end: string, tz: string)

  datatype Payload = Payload(rigId: string, group: string, task: string, shift: ShiftInfo,
                             blockMinutes: int, rotation: Mode, turns: seq<Turn>)

  // The source throws when an idle rig is taken over: it looks up the row of operator -1.
  datatype Answer = NotPlanned | Throws | Sent(payload: Payload)

  function NameOf(ops: seq<Operator>, who: int): Option<string> {
    if 0 <= who < |ops| then ops[who].name else None
  }

  function PersonOf(ops: seq<Operator>, who: int): Option<string> {
    if 0 <= who < |ops| then ops[who].personId else None
  }

  function Destination(after: Cell, rigs: seq<string>): GoesTo {
    match after
    case Break => ToBreak
    case Think => ToThink
    case On(r) => if 0 <= r < |rigs| then ToRig(rigs[r]) else EndOfShift
  }

  /** A rig nobody holds cannot be handed over. */
  predicate Handable(holders: seq<int>, s: Span)
    requires s.last < |holders|
  {
    holders[s.last] >= 0 || s.last + 1 == |holders|
  }

  /** One turn, of the run of one holder. */
  function TurnOf(p: PlannedGroup, start: nat, blockMin: nat, holders: seq<int>, s: Span): Turn
    requires Rectangular(p.rows, |holders|) && s.first <= s.last < |holders| && Handable(holders, s)
    requires forall b :: 0 <= b < |holders| ==> holders[b] < |p.rows|
  {
    var who, next := holders[s.last], s.last + 1;
    Turn(Hhmm(BlockStart(start, blockMin, s.first)), Hhmm(BlockStart(start, blockMin, next)),
         (s.last - s.first + 1) * blockMin,
         Sitter(p.group.key, who + 1, NameOf(p.group.ops, who), PersonOf(p.group.ops, who)),
         if next < |holders| then NameOf(p.group.ops, holders[next]) else None,
         if next < |holders| then Destination(p.rows[who][next], p.group.rigs) else EndOfShift)
  }

  function BlockStart(start: nat, blockMin: nat, b: nat): nat {
    (start + b * blockMin) % DAY
  }

  ghost predicate TurnsOf(turns: seq<Turn>, p: PlannedGroup, start: nat, blockMin: nat, holders: seq<int>,
                          spans: seq<Span>)
    requires Rectangular(p.rows, |holders|)
    requires forall b :: 0 <= b < |holders| ==> holders[b] < |p.rows|
  {
    |turns| == |spans| && forall k :: 0 <= k < |spans| ==>
      && spans[k].first <= spans[k].last < |holders| && Handable(holders, spans[k])
      && turns[k] == TurnOf(p, start, blockMin, holders, spans[k])
  }

  /** Somebody takes this rig over from nobody, right after block c. */
  ghost predicate TakenFromNobody(holders: seq<int>, c: nat) {
    c + 1 < |holders| && holders[c] == -1 && holders[c + 1] != -1
  }

  method RunFrom(holders: seq<int>, b: nat) returns (e: nat)
    requires b < |holders|
    ensures e == RunEnd(holders, b)
  {
    var who := holders[b];
    e := b;
    while e + 1 < |holders| && holders[e + 1] == who
      invariant b <= e < |holders| && RunEnd(holders, e) == RunEnd(holders, b) && holders[e] == who
    {
      e := e + 1;
    }
  }

  lemma TurnsOfGrows(turns: seq<Turn>, p: PlannedGroup, start: nat, blockMin: nat, holders: seq<int>,
                     done: seq<Span>, s: Span)
    requires Rectangular(p.rows, |holders|)
    requires forall b :: 0 <= b < |holders| ==> holders[b] < |p.rows|
    requires TurnsOf(turns, p, start, blockMin, holders, done)
    requires s.first <= s.last < |holders| && Handable(holders, s)
    ensures TurnsOf(turns + [TurnOf(p, start, blockMin, holders, s)], p, start, blockMin, holders, done + [s])
  {
  }

  /** The turns of a rig, in order. The source throws on the way exactly when somebody takes the rig
      over from nobody. */
  method BuildTurns(p: PlannedGroup, start: nat, blockMin: nat, holders: seq<int>) returns (turns: Option<seq<Turn>>)
    requires Rectangular(p.rows, |holders|)
    requires forall b :: 0 <= b < |holders| ==> -1 <= holders[b] < |p.rows|
    ensures turns == None <==> exists c :: TakenFromNobody(holders, c)
    ensures turns.Some? ==> TurnsOf(turns.value, p, start, blockMin, holders, Spans(holders, 0))
  {
    hide TurnOf, TurnsOf, Spans;
    var out: seq<Turn>, b := [], 0;
    ghost var done: seq<Span> := [];
    NothingSentYet(p, start, blockMin, holders);
    while b < |holders|
      invariant 0 <= b <= |holders|
      invariant Spans(holders, 0) == done + Spans(holders, b)
      invariant TurnsOf(out, p, start, blockMin, holders, done)
      invariant forall c :: 0 <= c < b ==> !TakenFromNobody(holders, c)
      decreases |holders| - b
    {
      var e := RunFrom(holders, b);
      if !Handable(holders, Span(b, e)) {
        assert TakenFromNobody(holders, e);
        return None;
      }
      TurnsOfGrows(out, p, start, blockMin, holders, done, Span(b, e));
      SpansGrow(holders, b, done);
      out := out + [TurnOf(p, start, blockMin, holders, Span(b, e))];
      done, b := done + [Span(b, e)], e + 1;
    }
    assert done + [] == done;
    turns := Some(out);
  }

  lemma NothingSentYet(p: PlannedGroup, start: nat, blockMin: nat, holders: seq<int>)
    requires Rectangular(p.rows, |holders|)
    requires forall b :: 0 <= b < |holders| ==> holders[b] < |p.rows|
    ensures TurnsOf([], p, start, blockMin, holders, []) && Spans(holders, |holders|) == []
  {
  }

  lemma SpansGrow(holders: seq<int>, b: nat, done: seq<Span>)
    requires b < |holders| && Spans(holders, 0) == done + Spans(holders, b)
    ensures var e := RunEnd(holders, b); Spans(holders, 0) == (done + [Span(b, e)]) + Spans(holders, e + 1)
  {
    hide RunEnd;
    var e := RunEnd(holders, b);
    var rest := Spans(holders, e + 1);
    assert Spans(holders, b) == [Span(b, e)] + rest;
    assert done + ([Span(b, e)] + rest) == (done + [Span(b, e)]) + rest;
  }

  // -------------------------------------------------- finding the rig

  function IndexFrom(rigs: seq<string>, rigId: string, i: nat): (r: int)
    requires i <= |rigs|
    ensures r == -1 <==> rigId !in rigs[i..]
    ensures r != -1 ==> i <= r < |rigs| && rigs[r] == rigId && rigId !in rigs[i..r]
    decreases |rigs| - i
  {
    if i == |rigs| then -1 else if rigs[i] == rigId then i else IndexFrom(rigs, rigId, i + 1)
  }

  /** A rig listed in several groups belongs to the last of them. */
  ghost predicate Listed(groups: seq<PlannedGroup>, rigId: string, gi: int) {
    && 0 <= gi < |groups| && rigId in groups[gi].group.rigs
    && forall k :: gi < k < |groups| ==> rigId !in groups[k].group.rigs
  }

  function ShiftOf(plan: Plan): ShiftInfo {
    var start := plan.config.shift.start;
    ShiftInfo(plan.config.shift.name, plan.config.date, Hhmm(start), Hhmm((start + SHIFT_MINUTES) % DAY),
              plan.config.tz)
  }

  ghost predicate PayloadFor(plan: Plan, gi: nat, ri: nat, pay: Payload)
    requires plan.config.blockMin > 0 && gi < |plan.groups| && ri < |plan.groups[gi].group.rigs|
    requires Rectangular(plan.groups[gi].rows, plan.nBlocks)
  {
    var p := plan.groups[gi];
    var holders := Holders(p.rows, ri, plan.nBlocks);
    && pay.rigId == p.group.rigs[ri] && pay.group == p.group.key && pay.task == p.group.task
    && pay.shift == ShiftOf(plan) && pay.blockMinutes == plan.config.blockMin && pay.rotation == plan.config.mode
    && TurnsOf(pay.turns, p, plan.config.shift.start, plan.config.blockMin, holders, Spans(holders, 0))
  }

  ghost predicate AnswerFor(plan: Plan, rigId: string, gi: nat, answer: Answer)
    requires plan.config.blockMin > 0 && RowsFit(plan) && Listed(plan.groups, rigId, gi)
  {
    var ri := IndexFrom(plan.groups[gi].group.rigs, rigId, 0);
    && answer != NotPlanned
    && (answer == Throws <==> exists c :: TakenFromNobody(Holders(plan.groups[gi].rows, ri, plan.nBlocks), c))
    && (answer.Sent? ==> PayloadFor(plan, gi, ri, answer.payload))
  }

  method RigPayload(plan: Plan, rigId: string) returns (answer: Answer)
    requires plan.config.blockMin > 0 && RowsFit(plan)
    ensures answer == NotPlanned <==> forall k :: 0 <= k < |plan.groups| ==> rigId !in plan.groups[k].group.rigs
    ensures answer != NotPlanned ==> exists gi :: Listed(plan.groups, rigId, gi) && AnswerFor(plan, rigId, gi, answer)
  {
    var gi, ri := -1, -1;
    for k := 0 to |plan.groups|
      invariant -1 <= gi < k
      invariant gi == -1 ==> forall j :: 0 <= j < k ==> rigId !in plan.groups[j].group.rigs
      invariant gi != -1 ==> 0 <= ri == IndexFrom(plan.groups[gi].group.rigs, rigId, 0)
      invariant gi != -1 ==> rigId in plan.groups[gi].group.rigs
                             && forall j :: gi < j < k ==> rigId !in plan.groups[j].group.rigs
    {
      var j := IndexFrom(plan.groups[k].group.rigs, rigId, 0);
      if j != -1 {
        gi, ri := k, j;
      }
    }
    if gi == -1 {
      return NotPlanned;
    }
    var p, start := plan.groups[gi], plan.config.shift.start;
    var holders := Holders(p.rows, ri, plan.nBlocks);
    var turns := BuildTurns(p, start, plan.config.blockMin, holders);
    assert Listed(plan.groups, rigId, gi);
    if turns == None {
      answer := Throws;
      assert AnswerFor(plan, rigId, gi, answer);
      return;
    }
    answer := Sent(Payload(rigId, p.group.key, p.group.task, ShiftOf(plan),
                           plan.config.blockMin, plan.config.mode, turns.value));
    assert PayloadFor(plan, gi, ri, answer.payload);
    assert AnswerFor(plan, rigId, gi, answer);
  }

  // ---------------------------------------------------------- reading back

  datatype OnRig = OnRig(turn: Turn, minutesLeft: real)

  /** A moment brought into one day, whatever its sign: minutes since midnight, seconds included. */
  function Wrap(t: real): (r: real)
    ensures 0.0 <= r < 1440.0
  {
    t - ((t / 1440.0).Floor as real) * 1440.0
  }

  predicate Inside(turn: Turn, t: real)
    requires |turn.from| == 5 && |turn.to| == 5
  {
    var from, to := ToMin(turn.from) as real, ToMin(turn.to) as real;
    if from < to then from <= t < to else t >= from || t < to
  }

  predicate Readable(turns: seq<Turn>) {
    forall k :: 0 <= k < |turns| ==> |turns[k].from| == 5 && |turns[k].to| == 5
  }

  function FirstInside(turns: seq<Turn>, t: real, i: nat): (k: int)
    requires i <= |turns| && Readable(turns)
    ensures k == -1 ==> forall j :: i <= j < |turns| ==> !Inside(turns[j], t)
    ensures k != -1 ==> i <= k < |turns| && Inside(turns[k], t) && forall j :: i <= j < k ==> !Inside(turns[j], t)
    decreases |turns| - i
  {
    if i == |turns| then -1 else if Inside(turns[i], t) then i else FirstInside(turns, t, i + 1)
  }

  function WhoIsOn(pay: Payload, at: real): Option<OnRig>
    requires Readable(pay.turns)
  {
    var t := Wrap(at);
    var k := FirstInside(pay.turns, t, 0);
    if k == -1 then None
    else
      var endsIn := Wrap(ToMin(pay.turns[k].to) as real - t + 1440.0);
      Some(OnRig(pay.turns[k], if endsIn == 0.0 then pay.blockMinutes as real else endsIn))
  }

  lemma WrapIs(t: real, r: real, k: int)
    requires 0.0 <= r < 1440.0 && t == r + (k as real) * 1440.0
    ensures Wrap(t) == r
  {
    assert t / 1440.0 == r / 1440.0 + k as real;
    assert (t / 1440.0).Floor == k;
  }

  // ------------------------------------------------------- the round trip

  /** Minutes into the shift, for a moment t of the day. */
  function IntoShift(start: nat, at: real): real {
    Wrap(at - start as real)
  }

  lemma WrapBothWays(start: nat, at: real)
    requires start < DAY
    ensures var t, rel := Wrap(at), IntoShift(start, at);
            rel == if t >= start as real then t - start as real else t - start as real + 1440.0
  {
    var t, k := Wrap(at), (at / 1440.0).Floor;
    if t >= start as real {
      WrapIs(at - start as real, t - start as real, k);
    } else {
      WrapIs(at - start as real, t - start as real + 1440.0, k - 1);
    }
  }

  lemma MinuteOf(x: nat)
    requires x < 2 * DAY
    ensures x % DAY == if x < DAY then x else x - DAY
  {
  }

  /** A turn read on the clock face is the turn read from the top of the shift. */
  lemma FaceIsRel(from: int, to: int, start: int, a: int, z: int, t: real, rel: real)
    requires 0 <= start < DAY && 0 <= a < z < DAY && 0.0 <= t < 1440.0 && 0.0 <= rel < 1440.0
    requires from == (if start + a < DAY then start + a else start + a - DAY)
    requires to == (if start + z < DAY then start + z else start + z - DAY)
    requires rel == if t >= start as real then t - start as real else t - start as real + 1440.0
    ensures (if from < to then from as real <= t < to as real else t >= from as real || t < to as real) <==>
              a as real <= rel < z as real
    ensures a as real <= rel < z as real ==>
              to as real - t + 1440.0 == z as real - rel + if to as real - t >= 0.0 then 1440.0 else 0.0
  {
  }

  /** Reading "HH:MM" against the clock is reading minutes into the shift, across midnight too. */
  lemma InsideIffIntoTurn(turn: Turn, start: nat, a: nat, z: nat, at: real)
    requires start < DAY && a < z < DAY
    requires turn.from == Hhmm((start + a) % DAY) && turn.to == Hhmm((start + z) % DAY)
    ensures var rel, t := IntoShift(start, at), Wrap(at);
            && (Inside(turn, t) <==> a as real <= rel < z as real)
            && (Inside(turn, t) ==> Wrap(ToMin(turn.to) as real - t + 1440.0) == z as real - rel)
  {
    hide Hhmm, ToMin, Wrap;
    ClockRoundTrip((start + a) % DAY);
    ClockRoundTrip((start + z) % DAY);
    MinuteOf(start + a);
    MinuteOf(start + z);
    WrapBothWays(start, at);
    var rel, t, to := IntoShift(start, at), Wrap(at), ToMin(turn.to);
    FaceIsRel(ToMin(turn.from), to, start, a, z, t, rel);
    if a as real <= rel < z as real {
      WrapIs(to as real - t + 1440.0, z as real - rel, if to as real - t >= 0.0 then 1 else 0);
    }
  }

  lemma BlockOfMoment(c: nat, first: nat, last: nat, blockMin: nat, rel: real)
    requires blockMin > 0 && (c * blockMin) as real <= rel < ((c + 1) * blockMin) as real
    ensures (first * blockMin) as real <= rel < ((last + 1) * blockMin) as real <==> first <= c <= last
  {
    if first <= c <= last {
      NoSmallerMultiple(first, c, blockMin);
      NoSmallerMultiple(c + 1, last + 1, blockMin);
    } else if c < first {
      NoSmallerMultiple(c + 1, first, blockMin);
    } else {
      NoSmallerMultiple(last + 1, c, blockMin);
    }
  }

  lemma TurnRuns(turns: seq<Turn>, p: PlannedGroup, start: nat, blockMin: nat, holders: seq<int>, k: nat)
    requires Rectangular(p.rows, |holders|)
    requires forall b :: 0 <= b < |holders| ==> holders[b] < |p.rows|
    requires TurnsOf(turns, p, start, blockMin, holders, Spans(holders, 0)) && k < |turns|
    ensures k < |Spans(holders, 0)|
    ensures var s := Spans(holders, 0)[k];
            && s.first <= s.last < |holders|
            && turns[k].from == Hhmm((start + s.first * blockMin) % DAY)
            && turns[k].to == Hhmm((start + (s.last + 1) * blockMin) % DAY)
  {
    hide Hhmm, Spans, Destination, NameOf, PersonOf;
  }

  lemma TurnTimes(turns: seq<Turn>, p: PlannedGroup, start: nat, blockMin: nat, holders: seq<int>, k: nat, at: real)
    requires Rectangular(p.rows, |holders|) && start < DAY && 0 < blockMin && |holders| * blockMin < DAY
    requires forall b :: 0 <= b < |holders| ==> holders[b] < |p.rows|
    requires TurnsOf(turns, p, start, blockMin, holders, Spans(holders, 0)) && k < |turns|
    ensures var s, rel, t := Spans(holders, 0)[k], IntoShift(start, at), Wrap(at);
            && |turns[k].from| == |turns[k].to| == 5
            && (Inside(turns[k], t) <==> (s.first * blockMin) as real <= rel < ((s.last + 1) * blockMin) as real)
            && (Inside(turns[k], t) ==>
                  Wrap(ToMin(turns[k].to) as real - t + 1440.0) == ((s.last + 1) * blockMin) as real - rel)
  {
    hide Hhmm, ToMin, Wrap, Inside, Spans, TurnsOf, IntoShift;
    TurnRuns(turns, p, start, blockMin, holders, k);
    var s := Spans(holders, 0)[k];
    NextMultiple(s.first, blockMin);
    NoSmallerMultiple(s.first + 1, s.last + 1, blockMin);
    NoSmallerMultiple(s.last + 1, |holders|, blockMin);
    InsideIffIntoTurn(turns[k], start, s.first * blockMin, (s.last + 1) * blockMin, at);
  }

  /** The payload describes this rig of this group over this shift. */
  ghost predicate Describes(pay: Payload, p: PlannedGroup, start: nat, blockMin: nat, holders: seq<int>)
  {
    && Rectangular(p.rows, |holders|) && start < DAY && 0 < blockMin && |holders| * blockMin < DAY
    && (forall b :: 0 <= b < |holders| ==> holders[b] < |p.rows|)
    && TurnsOf(pay.turns, p, start, blockMin, holders, Spans(holders, 0))
  }

  lemma DescribedIsReadable(pay: Payload, p: PlannedGroup, start: nat, blockMin: nat, holders: seq<int>)
    requires Describes(pay, p, start, blockMin, holders)
    ensures Readable(pay.turns)
  {
  }

  /** Before the first block or after the last, nobody is on: exactly outside the shift. */
  lemma NobodyOutsideTheShift(pay: Payload, p: PlannedGroup, start: nat, blockMin: nat, holders: seq<int>, at: real)
    requires Describes(pay, p, start, blockMin, holders) && Readable(pay.turns)
    requires IntoShift(start, at) >= (|holders| * blockMin) as real
    ensures WhoIsOn(pay, at) == None
  {
    hide Inside, Spans, Wrap, ToMin;
    var k := FirstInside(pay.turns, Wrap(at), 0);
    if k != -1 {
      TurnTimes(pay.turns, p, start, blockMin, holders, k, at);
      NoSmallerMultiple(Spans(holders, 0)[k].last + 1, |holders|, blockMin);
    }
  }

  /** The turn in progress is the maximal run of the block the moment falls in. */
  lemma InsideIsTheRunOf(pay: Payload, p: PlannedGroup, start: nat, blockMin: nat, holders: seq<int>, at: real,
                         c: nat, k: nat)
    requires Describes(pay, p, start, blockMin, holders) && Readable(pay.turns) && k < |pay.turns|
    requires c < |holders| && (c * blockMin) as real <= IntoShift(start, at) < ((c + 1) * blockMin) as real
    ensures var s := Spans(holders, 0)[k];
            && (Inside(pay.turns[k], Wrap(at)) <==> s.first <= c <= s.last)
            && (s.first <= c <= s.last ==> s.last == RunEnd(holders, c) && holders[s.last] == holders[c])
  {
    hide Inside, Spans, Wrap, ToMin;
    var s := Spans(holders, 0)[k];
    TurnTimes(pay.turns, p, start, blockMin, holders, k, at);
    BlockOfMoment(c, s.first, s.last, blockMin, IntoShift(start, at));
    SpanIsMaximal(holders, k);
    if s.first <= c <= s.last {
      RunEndIs(holders, c, s.last);
    }
  }

  /** Some turn is in progress at any moment of the shift, and every such turn is the run of its block. */
  lemma TurnInProgress(pay: Payload, p: PlannedGroup, start: nat, blockMin: nat, holders: seq<int>, at: real, c: nat)
    returns (k: nat)
    requires Describes(pay, p, start, blockMin, holders) && Readable(pay.turns)
    requires c < |holders| && (c * blockMin) as real <= IntoShift(start, at) < ((c + 1) * blockMin) as real
    ensures FirstInside(pay.turns, Wrap(at), 0) == k < |pay.turns| == |Spans(holders, 0)|
    ensures Inside(pay.turns[k], Wrap(at))
    ensures var s := Spans(holders, 0)[k];
            && s.first <= c <= s.last == RunEnd(holders, c) < |holders| && Handable(holders, s)
            && holders[s.last] == holders[c]
            && pay.turns[k] == TurnOf(p, start, blockMin, holders, s)
  {
    hide Inside, Spans, Wrap, ToMin, TurnOf;
    SpansTile(holders, 0);
    var there := SpanOfBlock(Spans(holders, 0), holders, c, 0);
    InsideIsTheRunOf(pay, p, start, blockMin, holders, at, c, there);
    var first := FirstInside(pay.turns, Wrap(at), 0);
    assert first != -1;
    k := first;
    InsideIsTheRunOf(pay, p, start, blockMin, holders, at, c, k);
  }

  /** At any moment of the shift the payload names the operator the plan has on the rig, who comes
      next, and how long is left: exactly until hands change. */
  lemma WhoIsOnReadsThePlan(pay: Payload, p: PlannedGroup, start: nat, blockMin: nat, holders: seq<int>, at: real,
                            c: nat)
    requires Describes(pay, p, start, blockMin, holders) && Readable(pay.turns)
    requires c < |holders| && (c * blockMin) as real <= IntoShift(start, at) < ((c + 1) * blockMin) as real
    ensures var on, e := WhoIsOn(pay, at), RunEnd(holders, c);
            && on.Some?
            && on.value.turn.operator == Sitter(p.group.key, holders[c] + 1, NameOf(p.group.ops, holders[c]),
                                                PersonOf(p.group.ops, holders[c]))
            && on.value.minutesLeft == ((e + 1) * blockMin) as real - IntoShift(start, at)
            && on.value.turn.relievedBy ==
                 if e + 1 < |holders| then NameOf(p.group.ops, holders[e + 1]) else None
  {
    hide Inside, Spans, Wrap, ToMin, Hhmm, TurnsOf, BlockStart;
    var k := TurnInProgress(pay, p, start, blockMin, holders, at, c);
    TurnTimes(pay.turns, p, start, blockMin, holders, k, at);
    NoSmallerMultiple(c + 1, RunEnd(holders, c) + 1, blockMin);
  }

  lemma ShiftFitsTheDay(blockMin: int)
    requires blockMin > 0
    ensures BlocksPerShift(blockMin) * blockMin < DAY
  {
    var N := BlocksPerShift(blockMin);
    assert N * (2 * blockMin) <= 2 * SHIFT_MINUTES + blockMin;
    assert N * (2 * blockMin) == 2 * (N * blockMin);
    if blockMin > 2 * SHIFT_MINUTES {
      DivisionIsUnique(2 * SHIFT_MINUTES + blockMin, 2 * blockMin, 0, 2 * SHIFT_MINUTES + blockMin);
    }
  }

  // ------------------------------------------------------ built plans

  /** Of a built plan, in either rotation: somebody holds this rig in every block of the shift. */
  lemma BuiltHolders(plan: Plan, cfg: Config, groups: seq<Group>, gi: nat, ri: nat)
    requires Askable(cfg) && Built(plan, cfg, groups) && gi < |groups| && ri < |groups[gi].rigs| < |groups[gi].ops|
    ensures RowsFit(plan) && plan.groups[gi].group == groups[gi] && |plan.groups[gi].rows| == |groups[gi].ops|
    ensures forall b :: 0 <= b < plan.nBlocks ==>
              0 <= Holders(plan.groups[gi].rows, ri, plan.nBlocks)[b] < |plan.groups[gi].rows|
  {
    BuiltFits(plan, cfg, groups);
    assert PlannedFrom(plan.groups[gi], groups[gi], cfg.mode, plan.nBlocks, cfg.stintBlocks, cfg.blockMin);
    AlwaysHeld(plan.groups[gi], groups[gi], cfg.mode, plan.nBlocks, cfg.stintBlocks, cfg.blockMin, ri);
  }

  /** A rig of a built plan whose group has more operators than rigs is always sent its payload. */
  lemma BuiltIsSent(plan: Plan, cfg: Config, groups: seq<Group>, rigId: string, gi: nat, answer: Answer)
    requires Askable(cfg) && Built(plan, cfg, groups) && gi < |groups| && |groups[gi].rigs| < |groups[gi].ops|
    ensures RowsFit(plan) && plan.groups[gi].group == groups[gi]
    ensures Listed(plan.groups, rigId, gi) && AnswerFor(plan, rigId, gi, answer) ==>
              answer.Sent? && PayloadFor(plan, gi, IndexFrom(groups[gi].rigs, rigId, 0), answer.payload)
  {
    hide PayloadFor, Holders;
    BuiltFits(plan, cfg, groups);
    if Listed(plan.groups, rigId, gi) && AnswerFor(plan, rigId, gi, answer) {
      var ri := IndexFrom(groups[gi].rigs, rigId, 0);
      BuiltHolders(plan, cfg, groups, gi, ri);
      HeldIsNotTakenFromNobody(Holders(plan.groups[gi].rows, ri, plan.nBlocks), plan.groups[gi].rows, ri, plan.nBlocks);
    }
  }

  lemma HeldIsNotTakenFromNobody(holders: seq<int>, rows: seq<seq<Cell>>, ri: nat, nBlocks: nat)
    requires Rectangular(rows, nBlocks) && holders == Holders(rows, ri, nBlocks)
    requires forall b :: 0 <= b < nBlocks ==> 0 <= holders[b]
    ensures !exists c :: TakenFromNobody(holders, c)
  {
  }

  lemma BuiltIsDescribed(plan: Plan, cfg: Config, groups: seq<Group>, gi: nat, ri: nat, pay: Payload)
    requires Askable(cfg) && Built(plan, cfg, groups) && gi < |groups| && cfg.shift.start < DAY
    requires ri < |groups[gi].rigs| < |groups[gi].ops|
    requires RowsFit(plan) && plan.groups[gi].group == groups[gi]
    requires PayloadFor(plan, gi, ri, pay)
    ensures Describes(pay, plan.groups[gi], cfg.shift.start, cfg.blockMin,
                      Holders(plan.groups[gi].rows, ri, plan.nBlocks))
    ensures Readable(pay.turns)
  {
    hide Spans, TurnsOf, PlannedFrom;
    BuiltHolders(plan, cfg, groups, gi, ri);
    ShiftFitsTheDay(cfg.blockMin);
    DescribedIsReadable(pay, plan.groups[gi], cfg.shift.start, cfg.blockMin,
                        Holders(plan.groups[gi].rows, ri, plan.nBlocks));
  }

  /** Minutes into the shift at which a block starts. */
  function BlockAt(c: nat, blockMin: nat): real {
    (c * blockMin) as real
  }

  /** Reading a described payload back: somebody is on exactly during the shift, and it is the holder. */
  ghost predicate ReadsBack(pay: Payload, p: PlannedGroup, start: nat, blockMin: nat, holders: seq<int>, at: real,
                            c: nat)
    requires Readable(pay.turns)
  {
    && (WhoIsOn(pay, at).Some? <==> c < |holders|)
    && (c < |holders| ==>
          var who, on := holders[c], WhoIsOn(pay, at).value;
          && 0 <= who < |p.group.ops|
          && on.turn.operator == Sitter(p.group.key, who + 1, p.group.ops[who].name, p.group.ops[who].personId)
          && on.minutesLeft == BlockAt(RunEnd(holders, c) + 1, blockMin) - IntoShift(start, at)
          && on.turn.relievedBy == RelievedBy(p, holders, RunEnd(holders, c)))
  }

  /** Whoever holds the rig in the block after this one; nobody at the end of the shift. */
  function RelievedBy(p: PlannedGroup, holders: seq<int>, e: nat): Option<string> {
    if e + 1 < |holders| then NameOf(p.group.ops, holders[e + 1]) else None
  }

  lemma DescribedReadsBack(pay: Payload, p: PlannedGroup, start: nat, blockMin: nat, holders: seq<int>, at: real,
                           c: nat)
    requires Describes(pay, p, start, blockMin, holders) && Readable(pay.turns)
    requires forall b :: 0 <= b < |holders| ==> 0 <= holders[b] < |p.group.ops|
    requires blockMin > 0 && BlockAt(c, blockMin) <= IntoShift(start, at) < BlockAt(c + 1, blockMin)
    ensures ReadsBack(pay, p, start, blockMin, holders, at, c)
  {
    hide Describes, WhoIsOn, IntoShift, RunEnd, Readable;
    if c < |holders| {
      WhoIsOnReadsThePlan(pay, p, start, blockMin, holders, at, c);
    } else {
      NoSmallerMultiple(|holders|, c, blockMin);
      NobodyOutsideTheShift(pay, p, start, blockMin, holders, at);
    }
  }

  /** The round trip: for every rig of a built plan, in either rotation, whose group has more operators
      than rigs, and for every moment of the day: its payload is sent, and reading it gives the operator
      the plan has on the rig in the block that moment falls in, who comes next, and the time left until
      hands next change; and nobody exactly when the shift is not running. */
  lemma PayloadRoundTrip(plan: Plan, cfg: Config, groups: seq<Group>, rigId: string, gi: nat, answer: Answer,
                         at: real, c: nat)
    requires Askable(cfg) && Built(plan, cfg, groups) && gi < |groups| && cfg.shift.start < DAY
    requires |groups[gi].rigs| < |groups[gi].ops|
    requires BlockAt(c, cfg.blockMin) <= IntoShift(cfg.shift.start, at) < BlockAt(c + 1, cfg.blockMin)
    ensures RowsFit(plan)
    ensures Listed(plan.groups, rigId, gi) && AnswerFor(plan, rigId, gi, answer) ==>
              && answer.Sent? && Readable(answer.payload.turns)
              && ReadsBack(answer.payload, plan.groups[gi], cfg.shift.start, cfg.blockMin,
                           Holders(plan.groups[gi].rows, IndexFrom(groups[gi].rigs, rigId, 0), plan.nBlocks), at, c)
  {
    hide PayloadFor, Describes, BlockAt, IntoShift, ReadsBack, Readable, AnswerFor, Built, Holders;
    BuiltConfig(plan, cfg, groups);
    BuiltIsSent(plan, cfg, groups, rigId, gi, answer);
    if Listed(plan.groups, rigId, gi) && AnswerFor(plan, rigId, gi, answer) {
      var ri := IndexFrom(groups[gi].rigs, rigId, 0);
      BuiltHolders(plan, cfg, groups, gi, ri);
      BuiltIsDescribed(plan, cfg, groups, gi, ri, answer.payload);
      assert |Holders(plan.groups[gi].rows, ri, plan.nBlocks)| == plan.nBlocks by {
        HoldersSize(plan.groups[gi].rows, ri, plan.nBlocks);
      }
      DescribedReadsBack(answer.payload, plan.groups[gi], cfg.shift.start, cfg.blockMin,
                         Holders(plan.groups[gi].rows, ri, plan.nBlocks), at, c);
    }
  }

  lemma BuiltConfig(plan: Plan, cfg: Config, groups: seq<Group>)
    requires Askable(cfg) && Built(plan, cfg, groups)
    ensures plan.config == cfg && |plan.groups| == |groups|
  {
  }

  lemma HoldersSize(rows: seq<seq<Cell>>, ri: nat, nBlocks: nat)
    requires Rectangular(rows, nBlocks)
    ensures |Holders(rows, ri, nBlocks)| == nBlocks
  {
  }
}
