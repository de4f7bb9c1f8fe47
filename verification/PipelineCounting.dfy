/** When an acknowledged event can be exposed at all: never, while no write was glued to an unfinished
    line or stopped inside a character, every boot reached the service, and the service refused nothing.
    And one run for each of these four ways in. */
module PipelineCounting {
  import opened JournalLog
  import opened Journals
  import opened Options
  import opened Pipeline
  import opened PipelineSafety

  ghost predicate Plain(s: State) {
    Readable(s.log) && !s.glued && !s.blind && s.denied == {}
  }

  /** A seq no lower than the mark's is in the ledger. */
  ghost predicate MarkIsHeld(s: State) {
    s.mark.Some? ==> exists e :: e in s.ledger && e.rig == Some(s.rig) && SeqOrZero(e) >= s.mark.value.upTo
  }

  /** Everything this page may still file or write is above n. */
  ghost predicate Above(s: State, n: int) {
    s.running ==> s.next > n && forall i :: 0 <= i < |s.chain| && s.chain[i].AppendOp? ==> SeqOrZero(s.chain[i].e) > n
  }

  ghost predicate AboveFlight(s: State) {
    s.up.InFlight? && Sendable(s.up.batch) ==> Above(s, Highest(s.up.batch))
  }

  /** What the uploader has in flight is still owed or already held. */
  ghost predicate FlightIsCovered(s: State) {
    s.up.InFlight? ==>
      forall id :: id in IdsOf(s.up.batch, s.rig) ==> id in IdsOf(s.ledger, s.rig) || Owes(s.log, s.mark, id)
  }

  ghost predicate Ahead(s: State) {
    && s.exposed == {} && s.refused == {} && MarkIsHeld(s)
    && (s.mark.Some? ==> Above(s, s.mark.value.upTo)) && AboveFlight(s) && FlightIsCovered(s)
  }

  // ---------------------------------------------------------------- per step

  lemma PlainBefore(s: State, step: Step)
    requires Enabled(s, step) && Plain(Do(s, step))
    ensures Plain(s)
    ensures step.ServiceRefuses? ==> false
    ensures step.Boot? ==> step.aligned
    ensures step.JournalOp? && s.chain[0] != ForgetOp([]) ==> s.log.tail == Clean || step.w == Nothing
  {
    hide Ingest, Compacted, Appended, OwedTo, Readable;
    ReadableNextIff(s, step);
    if step.ServiceRefuses? {
      RefusalIsNotPlain(s, step.batch);
    }
  }

  lemma RefusalIsNotPlain(s: State, b: seq<Event>)
    requires b in s.wire
    ensures !Plain(Do(s, ServiceRefuses(b)))
  {
    assert b in Do(s, ServiceRefuses(b)).denied;
  }

  lemma NothingExposed(s: State, step: Step)
    requires Inv(s) && Ahead(s) && Enabled(s, step) && Plain(Do(s, step))
    ensures Do(s, step).exposed == {} && Do(s, step).refused == {}
  {
    hide Ingest, Compacted, Appended, OwedTo, Inv, MarkIsHeld, FlightIsCovered, IdsOf;
    PlainBefore(s, step);
    if step.JournalOp? && s.chain[0].AppendOp? {
      var e := s.chain[0].e;
      if step.w == Durable {
        assert s.log.tail == Clean;
        assert OpOk(s.minted, Done(s), s.acked, s.chain[0]) by { HeadIsOk(s); }
        FiledIsNumbered(s, e);
        assert Guard(s, e);
      }
    }
  }

  lemma FiledIsNumbered(s: State, e: Event)
    requires Inv(s) && Known(s.minted, e)
    ensures e.seqNo.Some? && e.rig == Some(s.rig) && SeqOrMax(e) == SeqOrZero(e) >= 0
  {
  }

  lemma MarkStaysHeld(s: State, step: Step)
    requires Inv(s) && Ahead(s) && Enabled(s, step) && Plain(Do(s, step))
    ensures MarkIsHeld(Do(s, step))
  {
    hide Ingest, Compacted, Appended, OwedTo, Disk, Numbered, Safe, Closed, AboveFlight, FlightIsCovered, IdsOf;
    var t := Do(s, step);
    PlainBefore(s, step);
    OnlyGrows(s, step);
    if s.mark.Some? {
      var e :| e in s.ledger && e.rig == Some(s.rig) && SeqOrZero(e) >= s.mark.value.upTo;
      assert e in t.ledger;
    }
    if step.UploaderReply? {
      var e := HighestIsHeld(s, s.up.batch);
      assert e in t.ledger;
    }
  }

  /** The event with a batch's highest seq, once the batch has been taken. */
  lemma HighestIsHeld(s: State, b: seq<Event>) returns (e: Event)
    requires Inv(s) && b in s.took && BatchOk(s.minted, b)
    ensures e in s.ledger && e.rig == Some(s.rig) && SeqOrZero(e) == Highest(b)
  {
    hide Disk, Numbered, Safe, Closed;
    var i :| 0 <= i < |b| && b[i].seqNo.value == Highest(b);
    e := b[i];
    assert e in b && Known(s.minted, e);
    HeldIsRow(s, e.id.value, b);
  }

  lemma HeldIsRow(s: State, id: EventId, b: seq<Event>)
    requires Inv(s) && b in s.took && AllKnown(s.minted, b) && id in s.minted && s.minted[id] in b
    ensures s.minted[id] in s.ledger
  {
    hide Disk, Numbered, Safe, Closed;
    var i :| 0 <= i < |b| && b[i] == s.minted[id];
    assert id in IdsOf(b, s.rig);
    RowOf(s, id);
  }

  lemma RowOf(s: State, id: EventId)
    requires Inv(s) && id in IdsOf(s.ledger, s.rig)
    ensures id in s.minted && s.minted[id] in s.ledger
  {
    hide Disk, Numbered, Safe, Closed;
    var k :| 0 <= k < |s.ledger| && s.ledger[k].rig == Some(s.rig) && s.ledger[k].id == Some(id);
    assert s.ledger[k] in s.ledger;
  }

  /** A boot that reached the service counts on from above everything it recovered and everything held. */
  lemma BootCountsAbove(s: State, e: Event)
    requires !s.running && e.rig == Some(s.rig) && (e in s.ledger || e in Owed(s))
    ensures Do(s, Boot(true)).next > SeqOrZero(e)
  {
    hide OwedTo, Compacted;
  }

  lemma BootIsAboveMark(s: State)
    requires Inv(s) && Ahead(s) && !s.running && s.mark.Some?
    ensures Above(Do(s, Boot(true)), s.mark.value.upTo)
  {
    hide Inv, OwedTo, Compacted;
    var e :| e in s.ledger && e.rig == Some(s.rig) && SeqOrZero(e) >= s.mark.value.upTo;
    BootCountsAbove(s, e);
  }

  lemma BootIsAboveFlight(s: State)
    requires Inv(s) && Ahead(s) && Readable(s.log) && !s.running && s.up.InFlight? && Sendable(s.up.batch)
    ensures Above(Do(s, Boot(true)), Highest(s.up.batch))
  {
    hide OwedTo, Compacted, Safe, Closed, Numbered, Owes;
    var b := s.up.batch;
    var i :| 0 <= i < |b| && b[i].seqNo.value == Highest(b);
    assert BatchOk(s.minted, b) && b[i] in b && Known(s.minted, b[i]);
    var id := b[i].id.value;
    assert id in IdsOf(b, s.rig);
    if id in IdsOf(s.ledger, s.rig) {
      RowOf(s, id);
    } else {
      OwedById(s, id);
    }
    BootCountsAbove(s, b[i]);
  }

  lemma ReadIsBelowQueue(s: State)
    requires Inv(s) && Enabled(s, UploaderRead)
    ensures AboveFlight(Do(s, UploaderRead))
  {
    hide Compacted, OwedTo, Safe, Closed, Posts, Live;
    var b := FirstBatch(Owed(s));
    if Sendable(b) && s.running {
      var i :| 0 <= i < |b| && b[i].seqNo.value == Highest(b);
      OwedIsInText(s, b[i]);
      assert TextBelow(Visible(s.log), s.next);
      forall k | 0 <= k < |s.chain| && s.chain[k].AppendOp? ensures SeqOrZero(s.chain[k].e) > Highest(b) {
        assert TextBelow(Visible(s.log), SeqOrZero(s.chain[k].e));
      }
    }
  }

  lemma OwedIsInText(s: State, e: Event)
    requires e in Owed(s)
    ensures Put(e) in Visible(s.log)
  {
    hide OwedTo, Live, Visible;
    LiveIsKeyed(Visible(s.log));
    OwedIsExact(Live(Visible(s.log)), s.mark, s.rig);
    LiveComesFromText(Visible(s.log), e.id.value);
  }

  lemma StaysAbove(s: State, step: Step, n: int)
    requires Numbered(s) && Above(s, n) && Enabled(s, step) && !step.Boot?
    ensures Above(Do(s, step), n)
  {
    hide Ingest, Compacted, Appended, OwedTo, TextNumbered, QueueAbove, QueueAscends, TextBelow, QueueBelow;
    if step.JournalOp? {
      assert forall i :: 0 <= i < |s.chain[1..]| ==> s.chain[1..][i] == s.chain[i + 1];
    }
  }

  lemma MarkStaysBelow(s: State, step: Step)
    requires Inv(s) && Ahead(s) && Enabled(s, step) && Plain(Do(s, step))
    ensures Do(s, step).mark.Some? ==> Above(Do(s, step), Do(s, step).mark.value.upTo)
  {
    hide Ingest, Compacted, Appended, OwedTo, Inv, MarkIsHeld, FlightIsCovered, Above;
    PlainBefore(s, step);
    if step.Boot? {
      if s.mark.Some? {
        BootIsAboveMark(s);
      }
    } else {
      assert Numbered(s) by { InvHas(s); }
      if s.mark.Some? {
        StaysAbove(s, step, s.mark.value.upTo);
      }
      if step.UploaderReply? {
        SendableIsSome(s.up.batch);
        StaysAbove(s, step, Highest(s.up.batch));
      }
    }
  }

  lemma InvHas(s: State)
    requires Inv(s)
    ensures Numbered(s) && Disk(s) && Stock(s) && Posts(s)
  {
  }

  lemma FlightStaysBelow(s: State, step: Step)
    requires Inv(s) && Ahead(s) && Enabled(s, step) && Plain(Do(s, step))
    ensures AboveFlight(Do(s, step))
  {
    hide Ingest, Compacted, Appended, OwedTo, Inv, MarkIsHeld, FlightIsCovered, Above, Highest, Sendable, Live;
    PlainBefore(s, step);
    if step.UploaderRead? {
      ReadIsBelowQueue(s);
    } else if s.up.InFlight? && Sendable(s.up.batch) {
      if step.Boot? {
        BootIsAboveFlight(s);
      } else {
        assert Numbered(s) by { InvHas(s); }
        SendableIsSome(s.up.batch);
        StaysAbove(s, step, Highest(s.up.batch));
      }
    }
  }

  /** An ordinary write loses nothing that was owed, except what it forgets. */
  lemma CleanWriteKeeps(s: State, w: Written, id: EventId)
    requires Inv(s) && s.refused == {} && Enabled(s, JournalOp(w)) && Owes(s.log, s.mark, id)
    requires s.chain[0] != ForgetOp([]) ==> s.log.tail == Clean || w == Nothing
    ensures id in IdsOf(s.ledger, s.rig) || Owes(Do(s, JournalOp(w)).log, s.mark, id)
  {
    hide Visible, Live, Safe, Closed, Posts, Numbered, TextOk;
    var op, t := s.chain[0], Do(s, JournalOp(w));
    DiskKept(s, JournalOp(w));
    assert OpOk(s.minted, Done(s), s.acked, op);
    LiveIsKnown(s.minted, Done(s), Visible(s.log), id);
    if op != ForgetOp([]) && id !in Done(s) && w != Nothing {
      AppendedKeeps(s.log, LineOf(op), w, id);
      LiveIsKnown(t.minted, Done(t), Visible(t.log), id);
    }
  }

  lemma ReadIsCovered(s: State)
    requires Inv(s) && Enabled(s, UploaderRead)
    ensures FlightIsCovered(Do(s, UploaderRead))
  {
    hide Compacted, OwedTo, Safe, Closed, Posts, Numbered, Owes, FirstBatch;
    var b := FirstBatch(Owed(s));
    if Sendable(b) {
      forall id | id in IdsOf(b, s.rig) ensures Owes(Compacted(s.log, s.mark), s.mark, id) {
        var i :| 0 <= i < |b| && b[i].id == Some(id);
        assert b[i] in b;
        FirstBatchIsPart(Owed(s));
        OwedById(s, id);
        CompactedOwes(s.log, s.mark, id);
      }
    }
  }

  lemma FlightStaysCovered(s: State, step: Step)
    requires Inv(s) && Ahead(s) && Enabled(s, step) && Plain(Do(s, step))
    ensures FlightIsCovered(Do(s, step))
  {
    hide Ingest, Compacted, Appended, OwedTo, Inv, MarkIsHeld, AboveFlight, Above, Owes, IdsOf;
    var t := Do(s, step);
    PlainBefore(s, step);
    OnlyGrows(s, step);
    if step.UploaderRead? {
      ReadIsCovered(s);
    } else if t.up.InFlight? {
      forall id | id in IdsOf(t.up.batch, t.rig) ensures id in IdsOf(t.ledger, t.rig) || Owes(t.log, t.mark, id) {
        if step.JournalOp? {
          if Owes(s.log, s.mark, id) {
            CleanWriteKeeps(s, step.w, id);
          }
        } else if step.Boot? {
          CompactedOwes(s.log, s.mark, id);
        }
      }
    }
  }

  lemma StaysAhead(s: State, step: Step)
    requires Inv(s) && Ahead(s) && Enabled(s, step) && Plain(Do(s, step))
    ensures Ahead(Do(s, step)) && Plain(s)
  {
    hide Do, Inv, MarkIsHeld, Above, AboveFlight, FlightIsCovered;
    NothingExposed(s, step);
    MarkStaysHeld(s, step);
    MarkStaysBelow(s, step);
    FlightStaysBelow(s, step);
    FlightStaysCovered(s, step);
    PlainBefore(s, step);
  }

  // ------------------------------------------------------------ the theorem

  ghost predicate Good(s: State) {
    Inv(s) && (Plain(s) ==> Ahead(s))
  }

  lemma GoodAtFirst(rig: RigId)
    ensures Good(Init(rig))
  {
    InvAtFirst(rig);
  }

  lemma StepKeepsGood(s: State, step: Step)
    requires Good(s) && Enabled(s, step)
    ensures Good(Do(s, step))
  {
    hide Do, Inv, Ahead, Plain, Enabled;
    StepKeeps(s, step);
    if Plain(Do(s, step)) {
      PlainBefore(s, step);
      StaysAhead(s, step);
    }
  }

  lemma {:induction false} RunKeepsGood(s: State, steps: seq<Step>, t: State)
    requires Good(s) && Reaches(s, steps, t)
    ensures Good(t)
    decreases |steps|
  {
    hide Good, Do, Enabled;
    if steps != [] {
      StepKeepsGood(s, steps[0]);
      RunKeepsGood(Do(s, steps[0]), steps[1..], t);
    }
  }

  /** In a run where nothing was glued or cut inside a character, every boot reached the service and
      nothing was refused, every event whose append returned is handed over by the next load or in the
      ledger exactly once; and what the page files next is above the mark, above the batch in flight, and
      above every journalled seq. */
  lemma PlainRunsLoseNothing(rig: RigId, steps: seq<Step>, s: State)
    requires Reaches(Init(rig), steps, s) && Plain(s)
    ensures s.exposed == {}
    ensures forall id :: id in s.acked ==>
              id in s.minted && (s.minted[id] in Owed(s) || InLedgerOnce(s.ledger, s.minted[id]))
    ensures s.running && s.mark.Some? ==> s.next > s.mark.value.upTo
    ensures s.running && s.up.InFlight? && Sendable(s.up.batch) ==> s.next > Highest(s.up.batch)
    ensures s.running ==> forall e :: Put(e) in Visible(s.log) ==> SeqOrZero(e) < s.next
  {
    hide Reaches, OwedTo, Visible, Readable, EverCut, Owes, InLedgerOnce, IdsOf, Init, Inv;
    ReadableIffNeverCut(Init(rig), steps, s);
    assert Good(Init(rig)) by { GoodAtFirst(rig); }
    RunKeepsGood(Init(rig), steps, s);
    assert Numbered(s) by { InvHas(s); }
    forall id | id in s.acked
      ensures id in s.minted && (s.minted[id] in Owed(s) || InLedgerOnce(s.ledger, s.minted[id]))
    {
      NothingAcknowledgedIsLost(rig, steps, s, id);
    }
  }

  // ------------------------------------------------- the ways in, run by run

  function OneEvent(rig: RigId, id: EventId, n: int): Event {
    Event(Some(id), Some(rig), Some(n), 0)
  }

  lemma OneValue(e: Event, mark: Option<Mark>, rig: RigId)
    requires e.id.Some? && e.rig == Some(rig)
    ensures Values(map[e.id.value := e]) == [e]
    ensures OwedTo(map[e.id.value := e], mark, rig) == if Sent(e, mark) then [] else [e]
  {
    var live := map[e.id.value := e];
    assert live.Keys == {e.id.value};
    assert Least(live.Keys) == e.id.value;
    assert live - {e.id.value} == map[];
    assert [e][..0] == [] && [e][1..] == [];
    assert Filtered([e], mark, rig) == if Sent(e, mark) then [] else [e];
  }

  /** A file holding exactly one record and ending in a newline. */
  lemma OneLine(e: Event, mark: Option<Mark>, rig: RigId)
    requires e.id.Some? && e.rig == Some(rig)
    ensures Live([Put(e)]) == map[e.id.value := e]
    ensures OwedTo(map[e.id.value := e], mark, rig) == if Sent(e, mark) then [] else [e]
    ensures Compacted(Log([Put(e)], Clean), mark) == if Sent(e, mark) then Log([], Clean) else Log([Put(e)], Clean)
  {
    var log := Log([Put(e)], Clean);
    var live := map[e.id.value := e];
    LoneRecord(e);
    OneValue(e, mark, rig);
    ShortcutIffTidy(log, mark);
    assert Visible(log) == [Put(e)];
    if Sent(e, mark) {
      assert !NoneSent(Visible(log), mark) by { assert Visible(log)[0] == Put(e); }
      assert Unsent(live, mark) == map[];
      assert Ordered(live, mark) == [];
    }
  }

  lemma {:induction false} OneMoreStep(s: State, steps: seq<Step>, t: State, step: Step)
    requires Reaches(s, steps, t) && Enabled(t, step)
    ensures Reaches(s, steps + [step], Do(t, step))
    decreases |steps|
  {
    hide Do, Enabled;
    if steps == [] {
      assert [step][1..] == [];
    } else {
      OneMoreStep(Do(s, steps[0]), steps[1..], t, step);
      assert (steps + [step])[1..] == steps[1..] + [step];
    }
  }

  /** A page that has started on an empty disk and filed one event, not yet written. */
  lemma Begun(rig: RigId, id: EventId) returns (steps: seq<Step>, s: State)
    ensures Reaches(Init(rig), steps, s)
    ensures var e := OneEvent(rig, id, 0);
            s == Init(rig).(running := true, outbox := [e], chain := [AppendOp(e)], next := 1, minted := map[id := e])
  {
    hide Reaches, OwedTo, Compacted;
    var s0 := Init(rig);
    assert Reaches(s0, [], s0) by { hide *; StartsHere(s0); }
    EmptyFile(rig);
    OneMoreStep(s0, [], s0, Boot(true));
    s := Do(s0, Boot(true));
    OneMoreStep(s0, [] + [Boot(true)], s, Emit(id, 0));
    s, steps := Do(s, Emit(id, 0)), [] + [Boot(true)] + [Emit(id, 0)];
  }

  /** A rig files its first event and gets it onto its disk. */
  function Started(rig: RigId, id: EventId): State {
    var e := OneEvent(rig, id, 0);
    Init(rig).(running := true, outbox := [e], next := 1, log := Log([Put(e)], Clean),
               minted := map[id := e], acked := {id})
  }

  lemma Starts(rig: RigId, id: EventId) returns (steps: seq<Step>)
    ensures Reaches(Init(rig), steps, Started(rig, id))
  {
    hide Reaches, OwedTo, Compacted;
    var e, s: State := OneEvent(rig, id, 0), Init(rig);
    steps, s := Begun(rig, id);
    OneMoreStep(Init(rig), steps, s, JournalOp(Durable));
    steps := steps + [JournalOp(Durable)];
    assert Do(s, JournalOp(Durable)) == Started(rig, id) by {
      assert s.chain[1..] == [];
      assert s.log.lines + [Put(e)] == [Put(e)];
    }
  }

  lemma StartsHere(s: State)
    ensures Reaches(s, [], s)
  {
  }

  lemma EmptyFile(rig: RigId)
    ensures OwedTo(Live([]), None, rig) == [] && Compacted(Log([], Clean), None) == Log([], Clean)
  {
    ShortcutIffTidy(Log([], Clean), None);
  }

  /** The uploader carries that event off and has an answer: the mark passes it. */
  lemma Answered(rig: RigId, id: EventId, refused: bool) returns (steps: seq<Step>, s: State)
    ensures Reaches(Init(rig), steps, s)
    ensures s.log == Log([Put(OneEvent(rig, id, 0))], Clean) && s.mark == Some(Mark(rig, 0))
    ensures s.running && s.up == Quiet
    ensures s.minted.Keys == {id} && s.ledger == (if refused then [] else [OneEvent(rig, id, 0)])
    ensures s.refused == (if refused then {id} else {}) && s.rig == rig && !s.glued && !s.blind
    ensures !refused ==> s.denied == {}
  {
    hide Reaches, OwedTo, Compacted, Live;
    var s0, e := Init(rig), OneEvent(rig, id, 0);
    var b := [e];
    steps := Starts(rig, id);
    s := Started(rig, id);
    OneLine(e, None, rig);
    assert Owed(s) == b && FirstBatch(b) == b && Sendable(b) && Highest(b) == 0;
    OneMoreStep(s0, steps, s, UploaderRead);
    s, steps := Do(s, UploaderRead), steps + [UploaderRead];
    var reply := if refused then ServiceRefuses(b) else ServiceTakes(b);
    assert b in s.wire;
    OneMoreStep(s0, steps, s, reply);
    s, steps := Do(s, reply), steps + [reply];
    assert b in s.took || b in s.denied;
    OneMoreStep(s0, steps, s, UploaderReply);
    s, steps := Do(s, UploaderReply), steps + [UploaderReply];
    OneRow(rig, e);
  }

  lemma OneRow(rig: RigId, e: Event)
    requires e.rig == Some(rig) && e.id.Some?
    ensures Ingest([], [e]) == [e] && IdsOf([e], rig) == {e.id.value}
  {
    assert [e][1..] == [];
  }

  /** Filed, acknowledged, and nowhere: not owed, not in the ledger, not refused. */
  ghost predicate Gone(s: State, id: EventId) {
    id in s.acked && id in s.minted && s.minted[id] !in Owed(s) && id !in IdsOf(s.ledger, s.rig) && id !in s.refused
  }

  /** After the mark has passed seq 0 the page restarts and counts from where the service and the
      journal say: that is 0 again when the service refused the event, or when it cannot be asked. The
      next event is acknowledged and lost at once, because the mark already covers its seq. */
  lemma SeqUsedTwiceIsLost(rig: RigId, first: EventId, second: EventId, refused: bool)
    returns (steps: seq<Step>, s: State)
    requires first != second
    ensures Reaches(Init(rig), steps, s) && Gone(s, second)
    ensures !s.glued && (refused ==> !s.blind) && (!refused ==> s.denied == {})
  {
    hide Reaches, OwedTo, Compacted, Live;
    var s0 := Init(rig);
    steps, s := Answered(rig, first, refused);
    ghost var answered := s;
    OneMoreStep(s0, steps, s, Crash);
    s, steps := Do(s, Crash), steps + [Crash];
    OneLine(OneEvent(rig, first, 0), s.mark, rig);
    OneMoreStep(s0, steps, s, Boot(refused));
    s, steps := Do(s, Boot(refused)), steps + [Boot(refused)];
    assert s.next == 0 && s.log == Log([], Clean) && second !in s.minted;
    OneMoreStep(s0, steps, s, Emit(second, 0));
    s, steps := Do(s, Emit(second, 0)), steps + [Emit(second, 0)];
    OneMoreStep(s0, steps, s, JournalOp(Durable));
    s, steps := Do(s, JournalOp(Durable)), steps + [JournalOp(Durable)];
    var e := OneEvent(rig, second, 0);
    assert s.log.lines == [Put(e)];
    OneLine(e, s.mark, rig);
  }

  /** A file holding one record that lacks only its newline: a load hands it over and leaves it so. */
  lemma UnfinishedLine(e: Event, rig: RigId)
    requires e.id.Some? && e.rig == Some(rig)
    ensures var torn := Log([], Whole(Put(e)));
            Loaded(torn, None, rig) == Some([e]) && Compacted(torn, None) == torn
  {
    LoneRecord(e);
    OneValue(e, None, rig);
    OneTidyRecord(e, None);
    ShortcutIffTidy(Log([], Whole(Put(e))), None);
  }

  /** Power is cut between a record's last brace and its newline. The page restarts, recovers the event
      and files the next: its append returns, on a line it shares with the first, and it is gone. */
  lemma GluedIsLost(rig: RigId, first: EventId, second: EventId) returns (steps: seq<Step>, s: State)
    requires first != second
    ensures Reaches(Init(rig), steps, s) && Gone(s, second)
    ensures Readable(s.log) && !s.blind && s.denied == {}
  {
    hide Reaches, OwedTo, Compacted, Live, Readable;
    var s0 := Init(rig);
    steps, s := Begun(rig, first);
    OneMoreStep(s0, steps, s, JournalOp(AllButNewline));
    s, steps := Do(s, JournalOp(AllButNewline)), steps + [JournalOp(AllButNewline)];
    OneMoreStep(s0, steps, s, Crash);
    s, steps := Do(s, Crash), steps + [Crash];
    assert s.log == Log([], Whole(Put(OneEvent(rig, first, 0))));
    UnfinishedLine(OneEvent(rig, first, 0), rig);
    assert Owed(s) == [OneEvent(rig, first, 0)];
    OneMoreStep(s0, steps, s, Boot(true));
    s, steps := Do(s, Boot(true)), steps + [Boot(true)];
    assert second !in s.minted;
    OneMoreStep(s0, steps, s, Emit(second, 0));
    s, steps := Do(s, Emit(second, 0)), steps + [Emit(second, 0)];
    OneMoreStep(s0, steps, s, JournalOp(Durable));
    s, steps := Do(s, JournalOp(Durable)), steps + [JournalOp(Durable)];
    assert s.log == Log([Unreadable], Clean) by { assert s.log.lines == [Unreadable]; }
    NothingToRead(rig);
  }

  lemma NothingToRead(rig: RigId)
    ensures Loaded(Log([Unreadable], Clean), None, rig) == Some([])
  {
    LiveGrows([], Unreadable);
    assert [] + [Unreadable] == [Unreadable];
  }

  /** In an unreadable file, and in no queue, batch or ledger. */
  ghost predicate Stranded(s: State, id: EventId) {
    && !Readable(s.log) && id in s.minted && id !in IdsOf(s.outbox, s.rig) && id !in IdsOf(s.ledger, s.rig)
    && (forall b :: b in s.wire ==> id !in IdsOf(b, s.rig))
  }

  lemma IdsOfPart(whole: seq<Event>, part: seq<Event>, rig: RigId)
    requires forall e :: e in part ==> e in whole
    ensures IdsOf(part, rig) <= IdsOf(whole, rig)
  {
    forall id | id in IdsOf(part, rig) ensures id in IdsOf(whole, rig) {
      var i :| 0 <= i < |part| && part[i].rig == Some(rig) && part[i].id == Some(id);
      assert part[i] in part;
      var k :| 0 <= k < |whole| && whole[k] == part[i];
    }
  }

  lemma OthersHaveNone(s: State, b: seq<Event>)
    requires Enabled(s, OthersFile(b))
    ensures IdsOf(b, s.rig) == {}
  {
  }

  lemma StaysStranded(s: State, step: Step, id: EventId)
    requires OncePerKey(s.ledger) && Stranded(s, id) && Enabled(s, step)
    ensures Stranded(Do(s, step), id)
  {
    hide Ingest, Compacted, Appended, OwedTo, OncePerKey, IdsOf, Readable, Guard, Highest, IdList, Cursor, MaxSeq,
      Marked, Sendable, FirstBatch;
    ReadableNextIff(s, step);
    IdsOfSum([], [], s.rig);
    match step {
      case Emit(other, body) =>
        var e := Event(Some(other), Some(s.rig), Some(s.next), body);
        IdsOfSum(s.outbox, [e], s.rig);
        assert id !in IdsOf([e], s.rig) by { OnlyItself(e, id, s.rig); }
      case PagePost => FirstBatchIsPart(s.outbox); IdsOfPart(s.outbox, FirstBatch(s.outbox), s.rig);
      case PageReply => IdsOfPart(s.outbox, Do(s, step).outbox, s.rig);
      case ServiceTakes(b) => IngestExactlyOnce(s.ledger, b, s.rig);
      case OthersFile(b) =>
        IngestExactlyOnce(s.ledger, b, s.rig);
        OthersHaveNone(s, b);
      case Crash => NoIds(s.rig);
      case Boot(_) => NoIds(s.rig);
      case UploaderRead => assert !Sendable(FirstBatch([])) by { NothingToSend(); }
      case _ =>
    }
  }

  lemma NothingToSend()
    ensures !Sendable(FirstBatch([]))
  {
  }

  lemma OnlyItself(e: Event, id: EventId, rig: RigId)
    requires e.id != Some(id)
    ensures id !in IdsOf([e], rig)
  {
  }

  lemma {:induction false} StrandedForEver(s: State, steps: seq<Step>, t: State, id: EventId)
    requires Inv(s) && Stranded(s, id) && Reaches(s, steps, t)
    ensures Stranded(t, id) && t.rig == s.rig
    decreases |steps|
  {
    hide Inv, Do, Enabled, Stranded;
    if steps != [] {
      HasOneRowEach(s);
      OnlyGrows(s, steps[0]);
      StaysStranded(s, steps[0], id);
      StepKeeps(s, steps[0]);
      StrandedForEver(Do(s, steps[0]), steps[1..], t, id);
    }
  }

  /** The second record stops inside a character, and the power goes. The first had been acknowledged, in
      a run with nothing else wrong; whatever happens from here on it never reaches the ledger, and no
      load ever hands over anything again. */
  lemma CutInsideIsLost(rig: RigId, first: EventId, second: EventId) returns (steps: seq<Step>, s: State)
    requires first != second
    ensures Reaches(Init(rig), steps, s) && Gone(s, first)
    ensures !s.glued && !s.blind && s.denied == {} && s.exposed == {}
    ensures forall more, t :: Reaches(s, more, t) ==> Owed(t) == [] && first !in IdsOf(t.ledger, rig)
  {
    hide Reaches, OwedTo, Compacted, Live, Readable, IdsOf, Inv;
    var s0 := Init(rig);
    steps := Starts(rig, first);
    s := Started(rig, first);
    OneMoreStep(s0, steps, s, Emit(second, 0));
    s, steps := Do(s, Emit(second, 0)), steps + [Emit(second, 0)];
    OneMoreStep(s0, steps, s, JournalOp(HalfCharacter));
    ReadableNextIff(s, JournalOp(HalfCharacter));
    s, steps := Do(s, JournalOp(HalfCharacter)), steps + [JournalOp(HalfCharacter)];
    OneMoreStep(s0, steps, s, Crash);
    s, steps := Do(s, Crash), steps + [Crash];
    NoIds(rig);
    assert Stranded(s, first);
    InvAtFirst(rig);
    RunKeeps(s0, steps, s);
    forall more, t | Reaches(s, more, t) ensures Owed(t) == [] && first !in IdsOf(t.ledger, rig) {
      StrandedForEver(s, more, t, first);
    }
  }
}
