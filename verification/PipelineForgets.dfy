/** What a forget does: what the service has answered for leaves the journal, and nothing else does. */
module PipelineForgets {
  import opened JournalLog
  import opened Journals
  import opened Options
  import opened Pipeline
  import opened PipelineSafety

  lemma ForgottenLive(s: State, ids: seq<EventId>)
    requires ids != [] && Enabled(s, JournalOp(Durable)) && s.chain[0] == ForgetOp(ids) && s.log.tail == Clean
    ensures Live(Visible(Do(s, JournalOp(Durable)).log)) == Live(Visible(s.log)) - (set id | id in ids)
  {
    AppendedLive(s.log, Del(ids), Durable);
  }

  /** A tombstone written whole onto a clean file takes exactly its events from what a load hands over. */
  lemma ForgetTakesExactly(s: State, ids: seq<EventId>, e: Event)
    requires Inv(s) && Enabled(s, JournalOp(Durable)) && s.chain[0] == ForgetOp(ids) && s.log.tail == Clean
    ensures var t := Do(s, JournalOp(Durable));
            e in Owed(t) <==> e in Owed(s) && (e.id.Some? ==> e.id.value !in ids)
  {
    hide OwedTo, Live, Visible, Readable, Inv;
    var t := Do(s, JournalOp(Durable));
    ReadableNextIff(s, JournalOp(Durable));
    LiveIsKeyed(Visible(s.log));
    LiveIsKeyed(Visible(t.log));
    OwedIsExact(Live(Visible(s.log)), s.mark, s.rig);
    OwedIsExact(Live(Visible(t.log)), t.mark, t.rig);
    if ids != [] {
      ForgottenLive(s, ids);
    }
  }

  // ------------------------------------------------------------ and for ever

  /** In no finished line that counts, in no record lacking only its newline, and not waiting to be written. */
  ghost predicate Forgotten(s: State, id: EventId) {
    && id in s.minted && id !in Live(s.log.lines) && id !in Live(Visible(s.log))
    && forall i :: 0 <= i < |s.chain| && s.chain[i].AppendOp? ==> s.chain[i].e.id != Some(id)
  }

  lemma WriteLeavesForgotten(s: State, w: Written, id: EventId)
    requires Forgotten(s, id) && Enabled(s, JournalOp(w))
    ensures Forgotten(Do(s, JournalOp(w)), id)
  {
    hide Live, Visible, Guard;
    var op, t := s.chain[0], Do(s, JournalOp(w));
    assert forall i :: 0 <= i < |t.chain| ==> t.chain[i] == s.chain[i + 1];
    if op != ForgetOp([]) {
      var line := LineOf(op);
      assert line.Put? ==> line.event.id != Some(id);
      AppendedLive(s.log, line, w);
      LiveGrows(s.log.lines, line);
      LiveGrows(s.log.lines, Unreadable);
      LiveGrows(s.log.lines, Undecodable);
    }
  }

  lemma LoadLeavesForgotten(log: Log, mark: Option<Mark>, id: EventId)
    requires id !in Live(log.lines) && id !in Live(Visible(log))
    ensures id !in Live(Compacted(log, mark).lines) && id !in Live(Visible(Compacted(log, mark)))
  {
    hide Live, Ordered;
    CompactionKeepsMeaning(log, mark);
  }

  lemma StaysForgotten(s: State, step: Step, id: EventId)
    requires Forgotten(s, id) && Enabled(s, step)
    ensures Forgotten(Do(s, step), id)
  {
    hide Live, Visible, OwedTo, Compacted, Appended, Ingest, IdList, Cursor, MaxSeq, Marked, Highest, FirstBatch,
      Sendable, Readable, Guard, IdsOf;
    match step {
      case JournalOp(w) => WriteLeavesForgotten(s, w, id);
      case Boot(_) => LoadLeavesForgotten(s.log, s.mark, id);
      case UploaderRead => LoadLeavesForgotten(s.log, s.mark, id);
      case _ =>
    }
  }

  lemma {:induction false} ForgottenForEver(s: State, steps: seq<Step>, t: State, id: EventId)
    requires Forgotten(s, id) && Reaches(s, steps, t)
    ensures Forgotten(t, id)
    decreases |steps|
  {
    hide Forgotten, Do, Enabled;
    if steps != [] {
      StaysForgotten(s, steps[0], id);
      ForgottenForEver(Do(s, steps[0]), steps[1..], t, id);
    }
  }

  /** A forget waits only for events already filed, and behind every write of theirs. */
  ghost predicate ForgetsLate(minted: map<EventId, Event>, chain: seq<Op>) {
    && (forall i :: 0 <= i < |chain| && chain[i].ForgetOp? ==> forall id :: id in chain[i].ids ==> id in minted)
    && (forall i, j :: 0 <= i < j < |chain| && chain[i].ForgetOp? && chain[j].AppendOp? ==> Apart(chain[i], chain[j]))
  }

  predicate Apart(forget: Op, append: Op)
    requires forget.ForgetOp? && append.AppendOp?
  {
    append.e.id.Some? ==> append.e.id.value !in forget.ids
  }

  lemma AcknowledgedWasFiled(s: State, id: EventId)
    requires Inv(s) && s.page.InFlight? && id in IdList(s.page.batch)
    ensures id in s.minted
  {
    hide Disk, Numbered, Safe, Closed, IdList;
    var e :| e in s.page.batch && e.id == Some(id);
    assert BatchOk(s.minted, s.page.batch);
    assert Known(s.minted, e);
  }

  lemma StaysLate(s: State, step: Step)
    requires Inv(s) && ForgetsLate(s.minted, s.chain) && Enabled(s, step)
    ensures ForgetsLate(Do(s, step).minted, Do(s, step).chain)
  {
    hide Inv, OwedTo, Compacted, Appended, Ingest, IdList, Cursor, MaxSeq, Marked, Highest, FirstBatch, Sendable,
      Readable, Guard, IdsOf;
    match step {
      case JournalOp(_) =>
        assert forall i :: 0 <= i < |s.chain[1..]| ==> s.chain[1..][i] == s.chain[i + 1];
      case PageReply =>
        forall id | id in IdList(s.page.batch) ensures id in s.minted {
          AcknowledgedWasFiled(s, id);
        }
      case _ =>
    }
  }

  lemma {:induction false} RunStaysLate(s: State, steps: seq<Step>, t: State)
    requires Inv(s) && ForgetsLate(s.minted, s.chain) && Reaches(s, steps, t)
    ensures Inv(t) && ForgetsLate(t.minted, t.chain)
    decreases |steps|
  {
    hide Inv, ForgetsLate, Do, Enabled;
    if steps != [] {
      StaysLate(s, steps[0]);
      StepKeeps(s, steps[0]);
      RunStaysLate(Do(s, steps[0]), steps[1..], t);
    }
  }

  lemma NothingIsLate(rig: RigId)
    ensures ForgetsLate(Init(rig).minted, Init(rig).chain)
  {
  }

  lemma ForgottenAtOnce(s: State, ids: seq<EventId>, id: EventId)
    requires ForgetsLate(s.minted, s.chain) && Enabled(s, JournalOp(Durable))
    requires s.chain[0] == ForgetOp(ids) && id in ids && s.log.tail == Clean
    ensures Forgotten(Do(s, JournalOp(Durable)), id)
  {
    hide Live, Guard;
    var t := Do(s, JournalOp(Durable));
    ForgottenLive(s, ids);
    forall i | 0 <= i < |t.chain| && t.chain[i].AppendOp? ensures t.chain[i].e.id != Some(id) {
      assert t.chain[i] == s.chain[i + 1];
      assert Apart(s.chain[0], s.chain[i + 1]);
    }
  }

  lemma ForgottenIsNotOwed(s: State, id: EventId, e: Event)
    requires Forgotten(s, id) && e in Owed(s)
    ensures e.id != Some(id)
  {
    hide OwedTo, Live, Visible;
    LiveIsKeyed(Visible(s.log));
    OwedIsExact(Live(Visible(s.log)), s.mark, s.rig);
  }

  /** In every run: once a tombstone is whole on a clean file, no load of any continuation hands its events
      over again, whatever stops, is torn, is compacted or arrives late. */
  lemma ForgottenStaysForgotten(rig: RigId, steps: seq<Step>, s: State, ids: seq<EventId>, id: EventId,
                                more: seq<Step>, t: State, e: Event)
    requires Reaches(Init(rig), steps, s) && Enabled(s, JournalOp(Durable))
    requires s.chain[0] == ForgetOp(ids) && id in ids && s.log.tail == Clean
    requires Reaches(Do(s, JournalOp(Durable)), more, t) && e in Owed(t)
    ensures e.id != Some(id)
  {
    hide Inv, ForgetsLate, Forgotten, Do, Enabled, Owed, Init, Reaches;
    InvAtFirst(rig);
    NothingIsLate(rig);
    RunStaysLate(Init(rig), steps, s);
    ForgottenAtOnce(s, ids, id);
    ForgottenForEver(Do(s, JournalOp(Durable)), more, t, id);
    ForgottenIsNotOwed(t, id, e);
  }

  // ------------------------------------------- what an answer does to each side

  /** What the page has in flight is the front of what it has still to send. */
  ghost predicate FrontInFlight(s: State) {
    s.page.InFlight? ==> s.page.batch <= s.outbox
  }

  lemma StaysFront(s: State, step: Step)
    requires FrontInFlight(s) && Enabled(s, step)
    ensures FrontInFlight(Do(s, step))
  {
    hide OwedTo, Compacted, Appended, Ingest, IdList, Cursor, MaxSeq, Marked, Highest, Sendable, Readable, Guard, IdsOf;
  }

  lemma {:induction false} RunStaysFront(s: State, steps: seq<Step>, t: State)
    requires FrontInFlight(s) && Reaches(s, steps, t)
    ensures FrontInFlight(t)
    decreases |steps|
  {
    hide FrontInFlight, Do, Enabled;
    if steps != [] {
      StaysFront(s, steps[0]);
      RunStaysFront(Do(s, steps[0]), steps[1..], t);
    }
  }

  /** In every run an answer to the page's batch takes exactly that batch from what it has to send, and queues
      one forget of exactly its events. */
  lemma AnswerClearsTheBatch(rig: RigId, steps: seq<Step>, s: State, id: EventId)
    requires Reaches(Init(rig), steps, s) && Enabled(s, PageReply)
    ensures var t := Do(s, PageReply);
            && s.outbox == s.page.batch + t.outbox && t.page == Quiet
            && |t.chain| == |s.chain| + 1 && t.chain[..|s.chain|] == s.chain && t.chain[|s.chain|].ForgetOp?
            && (id in t.chain[|s.chain|].ids <==> exists e :: e in s.page.batch && e.id == Some(id))
  {
    hide Reaches, IdList;
    RunStaysFront(Init(rig), steps, s);
    IdListHas(s.page.batch, id);
  }

  lemma {:induction false} IdListHas(batch: seq<Event>, id: EventId)
    ensures id in IdList(batch) <==> exists e :: e in batch && e.id == Some(id)
  {
    if batch != [] {
      var init, last := batch[..|batch| - 1], batch[|batch| - 1];
      assert batch == init + [last];
      IdListHas(init, id);
      if last.id == Some(id) {
        assert last in batch;
      }
      if e :| e in init && e.id == Some(id) {
        assert e in batch;
      }
    }
  }

  /** In every reachable state an answer to the uploader retires its whole batch. */
  lemma AnswerRetiresTheBatch(s: State, e: Event)
    requires Inv(s) && Enabled(s, UploaderReply) && e in s.up.batch
    ensures e !in Owed(Do(s, UploaderReply))
  {
    hide OwedTo, Live, Visible, Disk, Numbered, Safe, Closed;
    var t := Do(s, UploaderReply);
    assert BatchOk(s.minted, s.up.batch);
    assert Known(s.minted, e);
    LiveIsKeyed(Visible(t.log));
    OwedIsExact(Live(Visible(t.log)), t.mark, t.rig);
  }

  // ------------------------------------------------------------ the counter

  lemma {:induction false} CursorIsHeld(ledger: seq<Event>, rig: RigId)
    ensures || Cursor(ledger, rig) == -1
            || exists e :: e in ledger && e.rig == Some(rig) && SeqOrZero(e) == Cursor(ledger, rig)
  {
    if ledger != [] {
      var init, last := ledger[..|ledger| - 1], ledger[|ledger| - 1];
      assert ledger == init + [last];
      CursorIsHeld(init, rig);
      if Cursor(ledger, rig) != Cursor(init, rig) {
        assert last in ledger;
      } else if e :| e in init && e.rig == Some(rig) && SeqOrZero(e) == Cursor(init, rig) {
        assert e in ledger;
      }
    }
  }

  lemma {:induction false} MaxSeqIsThere(events: seq<Event>)
    ensures MaxSeq(events) == -1 || exists e :: e in events && SeqOrZero(e) == MaxSeq(events)
  {
    if events != [] {
      var init, last := events[..|events| - 1], events[|events| - 1];
      assert events == init + [last];
      MaxSeqIsThere(init);
      if MaxSeq(events) != MaxSeq(init) {
        assert last in events;
      } else if e :| e in init && SeqOrZero(e) == MaxSeq(init) {
        assert e in events;
      }
    }
  }

  /** A boot counts on from right after the highest seq it recovered, or was told is held; from zero if there
      is neither. */
  lemma BootCountsOnFrom(s: State, aligned: bool)
    requires Enabled(s, Boot(aligned))
    ensures var next := Do(s, Boot(aligned)).next;
            && (forall e :: e in Owed(s) ==> SeqOrZero(e) < next)
            && (aligned ==> forall e :: e in s.ledger && e.rig == Some(s.rig) ==> SeqOrZero(e) < next)
            && (next == 0 || exists e :: SeqOrZero(e) == next - 1
                                         && (e in Owed(s) || (aligned && e in s.ledger && e.rig == Some(s.rig))))
  {
    hide OwedTo, Compacted, Cursor, MaxSeq;
    CursorIsHeld(s.ledger, s.rig);
    MaxSeqIsThere(Owed(s));
  }
}
