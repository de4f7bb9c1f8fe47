/** That what is safe can always still be delivered: from every reachable state the page's queue, and the
    journal through the uploader, can be emptied into the ledger. */
module PipelineDelivers {
  import opened JournalLog
  import opened Journals
  import opened Options
  import opened Pipeline
  import opened PipelineForgets
  import opened PipelineSafety

  // ------------------------------------------------------------ going on

  lemma Onward(s: State, step: Step, rest: seq<Step>, t: State)
    requires Enabled(s, step) && Reaches(Do(s, step), rest, t)
    ensures Reaches(s, [step] + rest, t)
  {
    hide Do, Enabled;
    assert ([step] + rest)[0] == step && ([step] + rest)[1..] == rest;
  }

  lemma Here(s: State)
    ensures Reaches(s, [], s)
  {
  }

  /** A batch the service takes is in the ledger. */
  lemma TakenIsHeld(s: State, batch: seq<Event>, e: Event)
    requires Inv(s) && batch in s.wire && e in batch && Known(s.minted, e)
    ensures e.id.value in IdsOf(Do(s, ServiceTakes(batch)).ledger, s.rig)
  {
    hide Disk, Numbered, Safe, Closed, Ingest, OncePerKey;
    IngestExactlyOnce(s.ledger, batch, s.rig);
    var i :| 0 <= i < |batch| && batch[i] == e;
    assert e.rig == Some(s.rig);
  }

  // -------------------------------------------------------------- the page

  /** Whatever the page files is queued to be sent and to be written, numbered in turn. */
  lemma FilingQueues(s: State, id: EventId, body: nat)
    requires Enabled(s, Emit(id, body))
    ensures var t, e := Do(s, Emit(id, body)), Event(Some(id), Some(s.rig), Some(s.next), body);
            t.outbox == s.outbox + [e] && t.chain == s.chain + [AppendOp(e)] && t.next == s.next + 1
  {
  }

  /** A boot has everything the load hands over to send again, and nothing to write; a crash loses all that
      was only in memory. */
  lemma BootSendsWhatIsOwed(s: State, aligned: bool)
    requires Enabled(s, Boot(aligned))
    ensures var t := Do(s, Boot(aligned));
            t.running && t.outbox == Owed(s) && t.chain == [] && t.page == Quiet && t.log == Compacted(s.log, s.mark)
  {
  }

  lemma CrashForgets(s: State)
    requires Enabled(s, Crash)
    ensures var t := Do(s, Crash);
            !t.running && t.outbox == [] && t.chain == [] && t.page == Quiet && t.log == s.log && t.up == s.up
  {
  }

  lemma QueuedIsKnown(s: State, e: Event)
    requires Inv(s) && e in s.outbox
    ensures Known(s.minted, e)
  {
    hide Disk, Numbered, Posts, Safe, Closed;
  }

  lemma PostLeavesNextOrSends(s: State, e: Event)
    requires s.page == Quiet && e in s.outbox
    ensures e in FirstBatch(s.outbox) || e in s.outbox[|FirstBatch(s.outbox)|..]
    ensures s.outbox != [] && |FirstBatch(s.outbox)| > 0
  {
  }

  /** While the page runs, what it has still to send can be delivered. */
  lemma PageCanDeliver(s: State, e: Event) returns (steps: seq<Step>, t: State)
    requires Inv(s) && s.running && e in s.outbox && e.id.Some?
    ensures Reaches(s, steps, t) && e.id.value in IdsOf(t.ledger, t.rig)
    decreases |s.outbox|, if s.page == Quiet then 0 else 1
  {
    hide Inv, Reaches, IdsOf, Ingest, IdList, FirstBatch, Guard;
    QueuedIsKnown(s, e);
    if s.page != Quiet {
      StepKeeps(s, PageLost);
      steps, t := PageCanDeliver(Do(s, PageLost), e);
      Onward(s, PageLost, steps, t);
      steps := [PageLost] + steps;
    } else {
      PostLeavesNextOrSends(s, e);
      var batch, posted := FirstBatch(s.outbox), Do(s, PagePost);
      StepKeeps(s, PagePost);
      var taken := Do(posted, ServiceTakes(batch));
      StepKeeps(posted, ServiceTakes(batch));
      if e in batch {
        TakenIsHeld(posted, batch, e);
        t := taken;
        Here(t);
        Onward(posted, ServiceTakes(batch), [], t);
        Onward(s, PagePost, [ServiceTakes(batch)] + [], t);
        steps := [PagePost] + ([ServiceTakes(batch)] + []);
      } else {
        FirstBatchIsFront(s.outbox);
        var answered := Do(taken, PageReply);
        StepKeeps(taken, PageReply);
        steps, t := PageCanDeliver(answered, e);
        Onward(taken, PageReply, steps, t);
        Onward(posted, ServiceTakes(batch), [PageReply] + steps, t);
        Onward(s, PagePost, [ServiceTakes(batch)] + ([PageReply] + steps), t);
        steps := [PagePost] + ([ServiceTakes(batch)] + ([PageReply] + steps));
      }
    }
  }

  lemma FirstBatchIsFront(outbox: seq<Event>)
    ensures |FirstBatch(outbox)| <= |outbox|
  {
  }

  // ------------------------------------------------------------ the uploader

  ghost function AllOwed(s: State): set<Event> {
    set e | e in Owed(s)
  }

  lemma OwedIsFiled(s: State, e: Event)
    requires Inv(s) && e in Owed(s)
    ensures Known(s.minted, e) && Owes(s.log, s.mark, e.id.value) && Readable(s.log)
  {
    hide OwedTo, Numbered, Posts, Safe, Closed, Visible, Live;
    OwedById(s, 0);
    assert Known(s.minted, e);
    OwedById(s, e.id.value);
  }

  /** The uploader can read whenever something is owed. */
  lemma ReadSends(s: State)
    requires Inv(s) && s.up == Quiet && Owed(s) != []
    ensures var batch := FirstBatch(Owed(s));
            && batch != [] && Sendable(batch) && Do(s, UploaderRead).up == InFlight(batch)
            && batch in Do(s, UploaderRead).wire
  {
    hide OwedTo, Compacted, FirstBatch, Highest, Inv;
    FirstBatchIsPart(Owed(s));
    ReadIsOk(s);
  }

  /** A read, taken and answered. */
  ghost function Round(s: State): State
    requires Inv(s) && s.up == Quiet && Owed(s) != []
  {
    ReadSends(s);
    var batch := FirstBatch(Owed(s));
    Do(Do(Do(s, UploaderRead), ServiceTakes(batch)), UploaderReply)
  }

  lemma RoundSays(s: State)
    requires Inv(s) && s.up == Quiet && Owed(s) != []
    ensures var t, batch := Round(s), FirstBatch(Owed(s));
            && Sendable(batch) && t.log == Compacted(s.log, s.mark) && t.rig == s.rig && t.up == Quiet
            && t.mark == Marked(s.mark, s.rig, Highest(batch))
  {
    hide OwedTo, Compacted, FirstBatch, Highest, Inv, Ingest, Marked;
    ReadSends(s);
  }

  lemma UnsentBeyond(s: State, e: Event, h: int)
    requires Stock(s) && Known(s.minted, e)
    ensures Sent(e, Marked(s.mark, s.rig, h)) <==> Sent(e, s.mark) || SeqOrZero(e) <= h
  {
  }

  /** A round leaves owed exactly what was not in its batch. */
  lemma RoundLeavesTheRest(s: State, e: Event)
    requires Inv(s) && s.up == Quiet && Owed(s) != []
    ensures e in Owed(Round(s)) <==> e in Owed(s) && e !in FirstBatch(Owed(s))
  {
    hide OwedTo, Live, Visible, Compacted, Readable, Disk, Numbered, Posts, Safe, Closed, Highest, FirstBatch, Marked,
      Round, Sent;
    var t, batch := Round(s), FirstBatch(Owed(s));
    RoundSays(s);
    CompactionKeepsMeaning(s.log, s.mark);
    OwedIsLive(s, e);
    OwedIsLive(t, e);
    if e.id.Some? && e.id.value in Live(Visible(s.log)) && Live(Visible(s.log))[e.id.value] == e {
      InFileIsKnown(s, e);
      UnsentBeyond(s, e, Highest(batch));
    }
    if e in Owed(s) {
      OwedIsFiled(s, e);
      if SeqOrZero(e) <= Highest(batch) {
        BatchLeavesNothingBelow(s, e.id.value);
      } else if e in batch {
        HighestIsAbove(batch, e);
      }
    }
  }

  lemma InFileIsKnown(s: State, e: Event)
    requires Inv(s) && e.id.Some? && e.id.value in Live(Visible(s.log)) && Live(Visible(s.log))[e.id.value] == e
    ensures Stock(s) && Known(s.minted, e)
  {
    hide Live, Visible, Numbered, Posts, Safe, Closed;
    LiveIsKnown(s.minted, Done(s), Visible(s.log), e.id.value);
  }

  lemma OwedIsLive(s: State, e: Event)
    ensures e in Owed(s) <==>
              && Readable(s.log) && e.id.Some? && e.id.value in Live(Visible(s.log))
              && Live(Visible(s.log))[e.id.value] == e && e.rig == Some(s.rig) && !Sent(e, s.mark)
  {
    hide OwedTo, Live, Visible, Readable, Sent;
    LiveIsKeyed(Visible(s.log));
    OwedIsExact(Live(Visible(s.log)), s.mark, s.rig);
  }

  lemma HighestIsAbove(batch: seq<Event>, e: Event)
    requires Sendable(batch) && e in batch
    ensures e.seqNo.Some? && SeqOrZero(e) <= Highest(batch)
  {
    var i :| 0 <= i < |batch| && batch[i] == e;
  }

  lemma FewerOwed(s: State)
    requires Inv(s) && s.up == Quiet && Owed(s) != []
    ensures |AllOwed(Round(s))| < |AllOwed(s)|
  {
    hide Inv, Owed, Round, FirstBatch;
    var batch := FirstBatch(Owed(s));
    ReadSends(s);
    FirstBatchIsPart(Owed(s));
    forall e ensures e in AllOwed(Round(s)) <==> e in AllOwed(s) && e !in batch {
      RoundLeavesTheRest(s, e);
    }
    assert batch[0] in AllOwed(s) && batch[0] in batch;
    Smaller(AllOwed(Round(s)), AllOwed(s), batch[0]);
  }

  lemma Smaller<T>(a: set<T>, b: set<T>, x: T)
    requires a <= b && x in b && x !in a
    ensures |a| < |b|
  {
    assert b == a + (b - a) && x in b - a;
    assert |b| == |a| + |b - a|;
  }

  lemma RoundIsARun(s: State, rest: seq<Step>, t: State) returns (steps: seq<Step>)
    requires Inv(s) && s.up == Quiet && Owed(s) != [] && Reaches(Round(s), rest, t)
    ensures Reaches(s, steps, t)
  {
    hide Inv, Reaches, Owed, FirstBatch, Sendable;
    ReadSends(s);
    var batch := FirstBatch(Owed(s));
    var read := Do(s, UploaderRead);
    Onward(Do(read, ServiceTakes(batch)), UploaderReply, rest, t);
    Onward(read, ServiceTakes(batch), [UploaderReply] + rest, t);
    Onward(s, UploaderRead, [ServiceTakes(batch)] + ([UploaderReply] + rest), t);
    steps := [UploaderRead] + ([ServiceTakes(batch)] + ([UploaderReply] + rest));
  }

  lemma RoundKeeps(s: State, e: Event)
    requires Inv(s) && s.up == Quiet && Owed(s) != []
    ensures Inv(Round(s))
    ensures e in FirstBatch(Owed(s)) && Known(s.minted, e) ==>
              e.id.Some? && e.id.value in IdsOf(Round(s).ledger, Round(s).rig)
  {
    hide Inv, Owed, FirstBatch, IdsOf, Ingest, Sendable;
    ReadSends(s);
    var batch := FirstBatch(Owed(s));
    var read := Do(s, UploaderRead);
    StepKeeps(s, UploaderRead);
    StepKeeps(read, ServiceTakes(batch));
    StepKeeps(Do(read, ServiceTakes(batch)), UploaderReply);
    if e in batch && Known(s.minted, e) {
      TakenIsHeld(read, batch, e);
    }
  }

  /** Whatever the next load would hand over can be delivered by the uploader alone, page or no page. */
  lemma UploaderCanDeliver(s: State, e: Event) returns (steps: seq<Step>, t: State)
    requires Inv(s) && e in Owed(s)
    ensures Reaches(s, steps, t) && e.id.Some? && e.id.value in IdsOf(t.ledger, t.rig)
    decreases |AllOwed(s)|, if s.up == Quiet then 0 else 1
  {
    hide Inv, Reaches, IdsOf, Round, FirstBatch, OwedTo, Readable, Visible, Live;
    OwedIsFiled(s, e);
    if s.up != Quiet {
      StepKeeps(s, UploaderLost);
      var next := Do(s, UploaderLost);
      assert AllOwed(next) == AllOwed(s);
      steps, t := UploaderCanDeliver(next, e);
      Onward(s, UploaderLost, steps, t);
      steps := [UploaderLost] + steps;
    } else {
      RoundKeeps(s, e);
      RoundLeavesTheRest(s, e);
      FewerOwed(s);
      if e in FirstBatch(Owed(s)) {
        t := Round(s);
        Here(t);
        steps := RoundIsARun(s, [], t);
      } else {
        steps, t := UploaderCanDeliver(Round(s), e);
        steps := RoundIsARun(s, steps, t);
      }
    }
  }

  /** In every run, an event whose append returned and was not exposed is in the ledger or was refused, or from
      here on it can still be brought there; unless a write has stopped inside a character. */
  lemma AcknowledgedCanBeDelivered(rig: RigId, before: seq<Step>, s: State, id: EventId)
    returns (steps: seq<Step>, t: State)
    requires Reaches(Init(rig), before, s) && id in s.acked && id !in s.exposed && !EverCut(Init(rig), before)
    ensures Reaches(s, steps, t)
    ensures id in s.refused || id in IdsOf(t.ledger, t.rig)
  {
    hide Inv, Reaches, IdsOf, EverCut, Owed, Init, InLedgerOnce;
    InvAtFirst(rig);
    RunKeeps(Init(rig), before, s);
    NothingAcknowledgedIsLost(rig, before, s, id);
    steps, t := [], s;
    Here(s);
    if s.minted[id] in Owed(s) {
      OwedIsFiled(s, s.minted[id]);
      FiledUnderId(s, id);
      steps, t := UploaderCanDeliver(s, s.minted[id]);
    } else if InLedgerOnce(s.ledger, s.minted[id]) {
      FiledUnderId(s, id);
      OnceIsHeld(s, id);
    }
  }

  lemma FiledUnderId(s: State, id: EventId)
    requires Inv(s) && id in s.minted
    ensures s.minted[id].id == Some(id) && s.minted[id].rig == Some(s.rig)
  {
    hide Disk, Numbered, Posts, Safe, Closed;
  }

  lemma OnceIsHeld(s: State, id: EventId)
    requires id in s.minted && s.minted[id].id == Some(id) && s.minted[id].rig == Some(s.rig)
    requires InLedgerOnce(s.ledger, s.minted[id])
    ensures id in IdsOf(s.ledger, s.rig)
  {
  }
}
