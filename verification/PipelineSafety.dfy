/** What every run of the pipeline keeps: no acknowledged event is lost. */
module PipelineSafety {
  import opened JournalLog
  import opened Journals
  import opened Options
  import opened Pipeline

  // ---------------------------------------------------------- the invariant

  /** The event this rig filed under its id. */
  ghost predicate Known(minted: map<EventId, Event>, e: Event) {
    e.id.Some? && e.id.value in minted && minted[e.id.value] == e
  }

  ghost predicate AllKnown(minted: map<EventId, Event>, events: seq<Event>) {
    forall e :: e in events ==> Known(minted, e)
  }

  /** Handed over, or refused. */
  ghost function Done(s: State): set<EventId> {
    IdsOf(s.ledger, s.rig) + s.refused
  }

  ghost predicate LineOk(minted: map<EventId, Event>, done: set<EventId>, line: Line) {
    match line
    case Put(e) => Known(minted, e)
    case Del(ids) => forall id :: id in ids ==> id in done
    case _ => true
  }

  ghost predicate TextOk(minted: map<EventId, Event>, done: set<EventId>, text: seq<Line>) {
    forall line :: line in text ==> LineOk(minted, done, line)
  }

  ghost predicate TailOk(acked: set<EventId>, tail: Tail) {
    tail.Whole? ==>
      match tail.line
      case Put(e) => e.id.Some? && e.id.value !in acked
      case Del(_) => true
      case _ => false
  }

  ghost predicate OpOk(minted: map<EventId, Event>, done: set<EventId>, acked: set<EventId>, op: Op) {
    match op
    case AppendOp(e) => Known(minted, e) && e.id.value !in acked
    case ForgetOp(ids) => forall id :: id in ids ==> id in done
  }

  ghost predicate QueueOk(minted: map<EventId, Event>, done: set<EventId>, acked: set<EventId>, chain: seq<Op>) {
    forall i :: 0 <= i < |chain| ==> OpOk(minted, done, acked, chain[i])
  }

  /** Events are filed under their own id, for this rig, numbered from zero. */
  ghost predicate MintedOk(minted: map<EventId, Event>, rig: RigId) {
    forall id :: id in minted ==>
      minted[id].id == Some(id) && minted[id].rig == Some(rig) && minted[id].seqNo.Some? && minted[id].seqNo.value >= 0
  }

  ghost predicate Stock(s: State) {
    && MintedOk(s.minted, s.rig) && s.acked <= s.minted.Keys && s.exposed <= s.acked
    && (s.mark.Some? ==> s.mark.value.rig == s.rig)
    && AllKnown(s.minted, s.outbox)
  }

  /** What is in the file and what is about to be. */
  ghost predicate Disk(s: State) {
    && TextOk(s.minted, Done(s), Visible(s.log)) && TailOk(s.acked, s.log.tail)
    && QueueOk(s.minted, Done(s), s.acked, s.chain)
  }

  /** No seq twice in the file; the queue's are higher, ascending; the counter is higher still. Of a file
      that cannot be read only the queue's order is left, since a page may then count from anywhere. */
  ghost predicate TextNumbered(text: seq<Line>) {
    forall e, f :: Put(e) in text && Put(f) in text && e.seqNo == f.seqNo ==> e == f
  }

  ghost predicate TextBelow(text: seq<Line>, n: int) {
    forall e :: Put(e) in text ==> SeqOrZero(e) < n
  }

  ghost predicate QueueAbove(text: seq<Line>, chain: seq<Op>) {
    forall i :: 0 <= i < |chain| && chain[i].AppendOp? ==> TextBelow(text, SeqOrZero(chain[i].e))
  }

  ghost predicate QueueAscends(chain: seq<Op>) {
    forall i, j :: 0 <= i < j < |chain| && chain[i].AppendOp? && chain[j].AppendOp? ==>
      SeqOrZero(chain[i].e) < SeqOrZero(chain[j].e)
  }

  ghost predicate QueueBelow(chain: seq<Op>, n: int) {
    forall i :: 0 <= i < |chain| && chain[i].AppendOp? ==> SeqOrZero(chain[i].e) < n
  }

  ghost predicate FileNumbered(text: seq<Line>, chain: seq<Op>, running: bool, next: int) {
    TextNumbered(text) && QueueAbove(text, chain) && (running ==> TextBelow(text, next))
  }

  ghost predicate Numbered(s: State) {
    && (Readable(s.log) ==> FileNumbered(Visible(s.log), s.chain, s.running, s.next))
    && QueueAscends(s.chain) && (s.running ==> s.next >= 0 && QueueBelow(s.chain, s.next))
    && (!s.running ==> s.chain == [] && s.page == Quiet)
  }

  ghost predicate BatchOk(minted: map<EventId, Event>, b: seq<Event>) {
    Sendable(b) && AllKnown(minted, b)
  }

  /** Everything posted was filed; what was answered for is where the answer said. */
  ghost predicate Posts(s: State) {
    && (forall b :: b in s.wire ==> BatchOk(s.minted, b))
    && (forall b :: b in s.took ==> IdsOf(b, s.rig) <= IdsOf(s.ledger, s.rig))
    && (forall b :: b in s.denied ==> IdsOf(b, s.rig) <= s.refused)
    && (s.page.InFlight? ==> s.page.batch in s.wire)
    && (s.up.InFlight? ==> s.up.batch in s.wire)
    && OncePerKey(s.ledger)
    && (forall e :: e in s.ledger && e.rig == Some(s.rig) ==> Known(s.minted, e))
  }

  /** Still on the disk and owed: live in the file's finished lines and not covered by the mark. */
  ghost predicate Owes(log: Log, mark: Option<Mark>, id: EventId) {
    var live := Live(Visible(log));
    id in live && !Sent(live[id], mark)
  }

  /** Acknowledged, and not by an append that was unsafe when it returned. */
  ghost predicate Trusted(s: State, id: EventId) {
    id in s.acked && id !in s.exposed && id in s.minted
  }

  ghost predicate Safe(s: State) {
    forall id :: Trusted(s, id) ==> id in Done(s) || Owes(s.log, s.mark, id)
  }

  /** Nothing safe and owed at or below the batch in flight is missing from it. */
  ghost predicate Closed(s: State) {
    s.up.InFlight? && Sendable(s.up.batch) ==>
      forall id :: Trusted(s, id) && Owes(s.log, s.mark, id) && SeqOrZero(s.minted[id]) <= Highest(s.up.batch) ==>
        id in Done(s) || id in IdsOf(s.up.batch, s.rig)
  }

  ghost predicate Inv(s: State) {
    Stock(s) && Disk(s) && Numbered(s) && Posts(s) && Safe(s) && Closed(s)
  }

  // -------------------------------------------------- what steps do to a log

  lemma {:induction false} LiveComesFromText(text: seq<Line>, id: EventId)
    requires id in Live(text)
    ensures Put(Live(text)[id]) in text && Live(text)[id].id == Some(id)
  {
    var init, last := text[..|text| - 1], text[|text| - 1];
    assert text == init + [last];
    LiveIsKeyed(text);
    if last != Put(Live(text)[id]) {
      LiveComesFromText(init, id);
    }
  }

  lemma LiveIsKnown(minted: map<EventId, Event>, done: set<EventId>, text: seq<Line>, id: EventId)
    requires TextOk(minted, done, text) && id in Live(text)
    ensures id in minted && Live(text)[id] == minted[id]
  {
    LiveComesFromText(text, id);
    assert LineOk(minted, done, Put(Live(text)[id]));
  }

  /** What one write leaves readable. */
  lemma AppendedText(log: Log, line: Record, w: Written, x: Line)
    requires x in Visible(Appended(log, line, w))
    ensures x in Visible(log) || x == Unreadable || x == Undecodable || (x == line && log.tail == Clean)
  {
    match log.tail {
      case Clean =>
      case Fragment =>
      case Broken =>
      case Whole(l) => assert forall y :: y in log.lines ==> y in log.lines + [l];
    }
  }

  lemma VisibleLive(log: Log)
    ensures Live(Visible(log)) == if log.tail.Whole? then Apply(Live(log.lines), log.tail.line) else Live(log.lines)
  {
    hide Apply;
    LiveGrows(log.lines, Unreadable);
    LiveGrows(log.lines, Undecodable);
    if log.tail.Whole? {
      LiveGrows(log.lines, log.tail.line);
    }
    ReadsNothing();
  }

  lemma ReadsNothing()
    ensures forall live :: Apply(live, Unreadable) == live && Apply(live, Undecodable) == live
  {
  }

  /** What one write makes of the log: nothing, the line, or the loss of the record it is glued to. */
  lemma AppendedLive(log: Log, line: Record, w: Written)
    ensures Live(Visible(Appended(log, line, w))) ==
              if w == Nothing then Live(Visible(log))
              else if log.tail != Clean || w == Piece || w == HalfCharacter then Live(log.lines)
              else Apply(Live(log.lines), line)
  {
    hide Apply, Live;
    var after := Appended(log, line, w);
    VisibleLive(after);
    LiveGrows(log.lines, line);
    LiveGrows(log.lines, Unreadable);
    LiveGrows(log.lines, Undecodable);
    ReadsNothing();
  }

  /** What one write takes away: what it forgets, and the unfinished record it is glued to. */
  lemma AppendedKeeps(log: Log, line: Record, w: Written, id: EventId)
    requires id in Live(Visible(log))
    requires line.Del? ==> id !in line.ids
    requires log.tail.Whole? && log.tail.line.Put? ==> log.tail.line.event.id != Some(id)
    ensures id in Live(Visible(Appended(log, line, w)))
  {
    hide Live, Visible, Appended;
    VisibleLive(log);
    AppendedLive(log, line, w);
  }

  /** What one write brings: what it puts, and what a forget it is glued to had taken away. */
  lemma AppendedAdds(log: Log, line: Record, w: Written, id: EventId)
    requires id in Live(Visible(Appended(log, line, w)))
    ensures || id in Live(Visible(log)) || (line.Put? && line.event.id == Some(id) && log.tail == Clean)
            || (log.tail.Whole? && log.tail.line.Del? && id in log.tail.line.ids)
  {
    hide Live, Visible, Appended;
    VisibleLive(log);
    AppendedLive(log, line, w);
  }

  lemma CompactedText(log: Log, mark: Option<Mark>, x: Line)
    requires x in Visible(Compacted(log, mark))
    ensures x in Visible(log)
    ensures Readable(log) && x.Put? ==>
              && x.event.id.Some? && Owes(log, mark, x.event.id.value)
              && Live(Visible(log))[x.event.id.value] == x.event
    ensures Readable(log) ==> x.Put? || x == Blank
  {
    hide Ordered, Counted;
    var text := Visible(log);
    var live := Live(text);
    if Rewrites(log, mark) {
      LiveIsKeyed(text);
      OrderedListsUnsent(live, mark);
      var owed := Ordered(live, mark);
      var i :| 0 <= i < |Puts(owed)| && Puts(owed)[i] == x;
      assert x == Put(owed[i]);
      LiveComesFromText(text, owed[i].id.value);
    } else if Readable(log) {
      ShortcutIffTidy(log, mark);
      var i :| 0 <= i < |text| && text[i] == x;
      assert TidyLine(text[i]);
      TidyIsAllLive(text);
    }
  }

  lemma CompactedOwes(log: Log, mark: Option<Mark>, id: EventId)
    ensures Owes(Compacted(log, mark), mark, id) <==> Owes(log, mark, id)
  {
    hide Live, Compacted;
    CompactionKeepsMeaning(log, mark);
  }

  /** The list a load hands over, by id. */
  lemma OwedById(s: State, id: EventId)
    requires Disk(s) && Stock(s)
    ensures Readable(s.log) ==> (Owes(s.log, s.mark, id) <==> id in s.minted && s.minted[id] in Owed(s))
    ensures AllKnown(s.minted, Owed(s))
  {
    hide OwedTo, Live, Visible;
    var text := Visible(s.log);
    LiveIsKeyed(text);
    OwedIsExact(Live(text), s.mark, s.rig);
    if id in Live(text) {
      LiveIsKnown(s.minted, Done(s), text, id);
    }
    forall e | e in Owed(s) ensures Known(s.minted, e) {
      LiveIsKnown(s.minted, Done(s), text, e.id.value);
    }
  }

  // ----------------------------------------------------- what each step keeps

  lemma HasOneRowEach(s: State)
    requires Inv(s)
    ensures OncePerKey(s.ledger)
  {
  }

  /** Nothing handed over or refused is ever taken back, and no filed event changes. */
  lemma OnlyGrows(s: State, step: Step)
    requires Inv(s) && Enabled(s, step)
    ensures Done(s) <= Done(Do(s, step)) && s.ledger <= Do(s, step).ledger && s.refused <= Do(s, step).refused
    ensures IdsOf(s.ledger, s.rig) <= IdsOf(Do(s, step).ledger, s.rig)
    ensures forall id :: id in s.minted ==> id in Do(s, step).minted && Do(s, step).minted[id] == s.minted[id]
    ensures Do(s, step).rig == s.rig
  {
    hide Ingest, OwedTo, Compacted, Appended, Inv, IdsOf, OncePerKey, Guard, Highest, Sendable, IdList, FirstBatch,
      Cursor, MaxSeq, Marked;
    assert OncePerKey(s.ledger) by { HasOneRowEach(s); }
    match step {
      case ServiceTakes(b) => IngestExactlyOnce(s.ledger, b, s.rig);
      case OthersFile(b) => IngestExactlyOnce(s.ledger, b, s.rig);
      case _ =>
    }
  }

  lemma HeadIsOk(s: State)
    requires Inv(s) && s.chain != []
    ensures OpOk(s.minted, Done(s), s.acked, s.chain[0])
  {
  }

  lemma FiledKeepsStock(s: State, id: EventId, body: nat)
    requires MintedOk(s.minted, s.rig) && AllKnown(s.minted, s.outbox) && s.next >= 0 && id !in s.minted
    ensures MintedOk(DoEmit(s, id, body).minted, s.rig)
    ensures AllKnown(DoEmit(s, id, body).minted, DoEmit(s, id, body).outbox)
  {
  }

  lemma PartIsKnown(minted: map<EventId, Event>, whole: seq<Event>, part: seq<Event>)
    requires AllKnown(minted, whole) && forall e :: e in part ==> e in whole
    ensures AllKnown(minted, part)
  {
  }

  lemma StockKept(s: State, step: Step)
    requires Inv(s) && Enabled(s, step)
    ensures Stock(Do(s, step))
  {
    hide Ingest, OwedTo, Compacted, Appended, Safe, Closed, Posts, TextOk, TextNumbered, QueueAbove, QueueAscends,
      TextBelow, Guard, IdsOf, MintedOk, AllKnown, QueueOk, TailOk, QueueBelow;
    var t := Do(s, step);
    match step {
      case JournalOp(w) =>
        assert OpOk(s.minted, Done(s), s.acked, s.chain[0]) by { HeadIsOk(s); }
      case Emit(id, body) =>
        FiledKeepsStock(s, id, body);
      case Crash =>
        assert AllKnown(s.minted, []) by { PartIsKnown(s.minted, s.outbox, []); }
      case PageReply =>
        assert AllKnown(s.minted, t.outbox) by { PartIsKnown(s.minted, s.outbox, t.outbox); }
      case Boot(_) =>
        OwedById(s, 0);
      case _ =>
    }
  }

  lemma TextGrows(minted: map<EventId, Event>, done: set<EventId>, text: seq<Line>,
                  more: map<EventId, Event>, further: set<EventId>)
    requires TextOk(minted, done, text) && done <= further
    requires forall id :: id in minted ==> id in more && more[id] == minted[id]
    ensures TextOk(more, further, text)
  {
    forall line | line in text ensures LineOk(more, further, line) {
      assert LineOk(minted, done, line);
    }
  }

  lemma QueueGrows(minted: map<EventId, Event>, done: set<EventId>, acked: set<EventId>, chain: seq<Op>,
                   more: map<EventId, Event>, further: set<EventId>)
    requires QueueOk(minted, done, acked, chain) && done <= further
    requires forall id :: id in minted ==> id in more && more[id] == minted[id]
    ensures QueueOk(more, further, acked, chain)
  {
    forall i | 0 <= i < |chain| ensures OpOk(more, further, acked, chain[i]) {
      assert OpOk(minted, done, acked, chain[i]);
    }
  }

  /** A batch that was answered for is done with. */
  lemma AnsweredIsDone(s: State, b: seq<Event>, id: EventId)
    requires Stock(s) && Posts(s) && b in s.wire && (b in s.took || b in s.denied) && id in IdList(b)
    ensures id in Done(s)
  {
    var e :| e in b && e.id == Some(id);
    assert BatchOk(s.minted, b) && Known(s.minted, e);
    var i :| 0 <= i < |b| && b[i] == e;
    assert id in IdsOf(b, s.rig);
  }

  lemma AckedIsDone(s: State, id: EventId)
    requires Inv(s) && Enabled(s, PageReply) && id in IdList(s.page.batch)
    ensures id in Done(s)
  {
    hide Disk, Numbered, Safe, Closed, IdList;
    AnsweredIsDone(s, s.page.batch, id);
  }

  lemma CompactedDisk(s: State)
    requires Disk(s)
    ensures TextOk(s.minted, Done(s), Visible(Compacted(s.log, s.mark)))
    ensures TailOk(s.acked, Compacted(s.log, s.mark).tail)
  {
    hide Visible;
    forall line | line in Visible(Compacted(s.log, s.mark)) ensures LineOk(s.minted, Done(s), line) {
      CompactedText(s.log, s.mark, line);
    }
  }

  lemma WrittenDisk(s: State, w: Written)
    requires Inv(s) && Enabled(s, JournalOp(w))
    ensures Disk(Do(s, JournalOp(w)))
  {
    hide Visible, Live, Safe, Closed, Posts, TextNumbered;
    var op, t := s.chain[0], Do(s, JournalOp(w));
    assert OpOk(s.minted, Done(s), s.acked, op);
    forall line | line in Visible(t.log) ensures LineOk(t.minted, Done(t), line) {
      if op != ForgetOp([]) {
        AppendedText(s.log, LineOf(op), w, line);
      }
    }
    forall i | 0 <= i < |t.chain| ensures OpOk(t.minted, Done(t), t.acked, t.chain[i]) {
      assert t.chain[i] == s.chain[i + 1];
      assert OpOk(s.minted, Done(s), s.acked, s.chain[i + 1]);
    }
  }

  lemma DiskKept(s: State, step: Step)
    requires Inv(s) && Enabled(s, step)
    ensures Disk(Do(s, step))
  {
    hide Ingest, OwedTo, Compacted, Appended, Visible, Safe, Closed, TextNumbered, QueueAbove, QueueAscends, TextBelow,
      TextOk, TailOk, QueueOk, IdList, MintedOk, AllKnown, IdsOf, Guard, QueueBelow, Posts, FirstBatch, Sendable,
      Highest, Cursor, MaxSeq, Marked;
    var t := Do(s, step);
    OnlyGrows(s, step);
    match step {
      case JournalOp(w) =>
        WrittenDisk(s, w);
      case Boot(_) =>
        CompactedDisk(s);
        assert QueueOk(t.minted, Done(t), t.acked, []) by { EmptyQueue(t.minted, Done(t), t.acked); }
      case Crash =>
        assert QueueOk(t.minted, Done(t), t.acked, []) by { EmptyQueue(t.minted, Done(t), t.acked); }
      case UploaderRead =>
        CompactedDisk(s);
      case PageReply =>
        forall id | id in IdList(s.page.batch) ensures id in Done(t) {
          AckedIsDone(s, id);
        }
        QueueAdds(t.minted, Done(t), t.acked, s.chain, ForgetOp(IdList(s.page.batch)));
      case Emit(id, body) =>
        assert id !in s.acked;
        TextGrows(s.minted, Done(s), Visible(s.log), t.minted, Done(t));
        QueueGrows(s.minted, Done(s), s.acked, s.chain, t.minted, Done(t));
        QueueAdds(t.minted, Done(t), t.acked, s.chain, t.chain[|s.chain|]);
      case _ =>
        TextGrows(s.minted, Done(s), Visible(s.log), t.minted, Done(t));
        QueueGrows(s.minted, Done(s), s.acked, s.chain, t.minted, Done(t));
    }
  }

  lemma EmptyQueue(minted: map<EventId, Event>, done: set<EventId>, acked: set<EventId>)
    ensures QueueOk(minted, done, acked, [])
  {
  }

  lemma QueueAdds(minted: map<EventId, Event>, done: set<EventId>, acked: set<EventId>, chain: seq<Op>, op: Op)
    requires QueueOk(minted, done, acked, chain) && OpOk(minted, done, acked, op)
    ensures QueueOk(minted, done, acked, chain + [op])
  {
  }

  lemma TextFewer(text: seq<Line>, fewer: seq<Line>)
    requires forall x: Line :: x.Put? && x in fewer ==> x in text
    ensures TextNumbered(text) ==> TextNumbered(fewer)
    ensures forall n :: TextBelow(text, n) ==> TextBelow(fewer, n)
  {
  }

  lemma CompactedFewer(log: Log, mark: Option<Mark>)
    ensures forall x: Line :: x.Put? && x in Visible(Compacted(log, mark)) ==> x in Visible(log)
  {
    hide Visible, Compacted;
    forall x: Line | x.Put? && x in Visible(Compacted(log, mark)) ensures x in Visible(log) {
      CompactedText(log, mark, x);
    }
  }

  /** A write that stops inside a character. */
  predicate CutsInside(s: State, step: Step) {
    step == JournalOp(HalfCharacter) && s.chain != [] && s.chain[0] != ForgetOp([])
  }

  /** No step but such a write spoils the file, and none mends it. */
  lemma ReadableNextIff(s: State, step: Step)
    requires Enabled(s, step)
    ensures Readable(Do(s, step).log) <==> Readable(s.log) && !CutsInside(s, step)
  {
    hide Readable, Ingest, OwedTo, Appended, Compacted, Guard, IdList, Highest, Sendable, FirstBatch, Cursor, MaxSeq,
      Marked;
    CompactionKeepsMeaning(s.log, s.mark);
    if step.JournalOp? {
      ReadableAfterIff(s.log, LineOf(s.chain[0]), step.w);
    }
  }

  lemma WrittenNumbered(s: State, w: Written)
    requires Inv(s) && Enabled(s, JournalOp(w))
    ensures Numbered(Do(s, JournalOp(w)))
  {
    hide Visible, Live, Safe, Closed, Posts, Disk, Stock, Appended, Readable, FileNumbered;
    var t := Do(s, JournalOp(w));
    assert forall i :: 0 <= i < |t.chain| ==> t.chain[i] == s.chain[i + 1];
    ReadableNextIff(s, JournalOp(w));
    if Readable(t.log) {
      WrittenFileNumbered(s, w);
    }
  }

  lemma WrittenFileNumbered(s: State, w: Written)
    requires Inv(s) && Enabled(s, JournalOp(w)) && Readable(s.log)
    ensures var t := Do(s, JournalOp(w)); FileNumbered(Visible(t.log), t.chain, t.running, t.next)
  {
    hide Visible, Live, Safe, Closed, Posts, Disk, Stock, Appended, Readable;
    var op, t := s.chain[0], Do(s, JournalOp(w));
    var text, after := Visible(s.log), Visible(t.log);
    forall x: Line | x.Put? && x in after ensures x in text || (op.AppendOp? && x == Put(op.e)) {
      if op != ForgetOp([]) {
        AppendedText(s.log, LineOf(op), w, x);
      }
    }
    assert forall i :: 0 <= i < |t.chain| ==> t.chain[i] == s.chain[i + 1];
    if op.AppendOp? {
      assert TextBelow(text, SeqOrZero(op.e));
      assert SeqOrZero(op.e) < s.next;
    }
    assert TextNumbered(after);
    forall i | 0 <= i < |t.chain| && t.chain[i].AppendOp? ensures TextBelow(after, SeqOrZero(t.chain[i].e)) {
      assert TextBelow(text, SeqOrZero(s.chain[i + 1].e));
    }
  }

  lemma BootNumbered(s: State, aligned: bool)
    requires Inv(s) && Enabled(s, Boot(aligned))
    ensures Numbered(Do(s, Boot(aligned)))
  {
    hide Visible, Live, Safe, Closed, Posts, OwedTo, Compacted, Readable, TextNumbered, TextBelow;
    var t := Do(s, Boot(aligned));
    ReadableNextIff(s, Boot(aligned));
    if Readable(s.log) {
      CompactedFewer(s.log, s.mark);
      TextFewer(Visible(s.log), Visible(t.log));
      BootCounts(s, aligned);
    }
  }

  lemma BootCounts(s: State, aligned: bool)
    requires Inv(s) && Enabled(s, Boot(aligned)) && Readable(s.log)
    ensures TextBelow(Visible(Do(s, Boot(aligned)).log), Do(s, Boot(aligned)).next)
  {
    hide Visible, Live, Safe, Closed, Posts, OwedTo, Compacted, Readable;
    var t := Do(s, Boot(aligned));
    forall e | Put(e) in Visible(t.log) ensures SeqOrZero(e) < t.next {
      CompactedText(s.log, s.mark, Put(e));
      OwedById(s, e.id.value);
      LiveIsKnown(s.minted, Done(s), Visible(s.log), e.id.value);
      assert e in Owed(s);
    }
  }

  lemma QueueFewer(text: seq<Line>, fewer: seq<Line>, chain: seq<Op>)
    requires QueueAbove(text, chain) && forall n :: TextBelow(text, n) ==> TextBelow(fewer, n)
    ensures QueueAbove(fewer, chain)
  {
    hide TextBelow;
  }

  lemma QueueGoesOn(text: seq<Line>, chain: seq<Op>, op: Op, n: int)
    requires QueueBelow(chain, n) && QueueAscends(chain) && (op.AppendOp? ==> SeqOrZero(op.e) == n)
    ensures QueueAscends(chain + [op]) && QueueBelow(chain + [op], if op.AppendOp? then n + 1 else n)
    ensures QueueAbove(text, chain) && TextBelow(text, n) ==> QueueAbove(text, chain + [op]) && TextBelow(text, n + 1)
  {
  }

  lemma NumberedKept(s: State, step: Step)
    requires Inv(s) && Enabled(s, step)
    ensures Numbered(Do(s, step))
  {
    hide Ingest, OwedTo, Compacted, Appended, Visible, Readable, Safe, Closed, Disk, Posts, Stock, TextNumbered,
      QueueAbove, QueueAscends, TextBelow, QueueBelow;
    var t := Do(s, step);
    match step {
      case JournalOp(w) =>
        WrittenNumbered(s, w);
      case Boot(aligned) =>
        BootNumbered(s, aligned);
      case Crash =>
        NoQueue(Visible(s.log));
      case UploaderRead =>
        ReadableNextIff(s, step);
        CompactedFewer(s.log, s.mark);
        TextFewer(Visible(s.log), Visible(t.log));
        if Readable(s.log) {
          QueueFewer(Visible(s.log), Visible(t.log), s.chain);
        }
      case Emit(_, _) =>
        QueueGoesOn(Visible(s.log), s.chain, t.chain[|s.chain|], s.next);
      case PageReply =>
        QueueGoesOn(Visible(s.log), s.chain, t.chain[|s.chain|], s.next);
      case _ =>
    }
  }

  lemma NoQueue(text: seq<Line>)
    ensures QueueAbove(text, []) && QueueAscends([])
  {
  }

  // ------------------------------------------------------------------ posts

  lemma KnownStays(s: State, step: Step, events: seq<Event>)
    requires Inv(s) && Enabled(s, step) && AllKnown(s.minted, events)
    ensures AllKnown(Do(s, step).minted, events)
  {
    hide Inv, Do;
    OnlyGrows(s, step);
  }

  lemma PostedIsOk(s: State, batch: seq<Event>)
    requires Stock(s) && batch != [] && AllKnown(s.minted, batch)
    ensures BatchOk(s.minted, batch)
  {
    forall i | 0 <= i < |batch| ensures batch[i].seqNo.Some? {
      assert batch[i] in batch && Known(s.minted, batch[i]);
    }
  }

  lemma FirstBatchIsPart(owed: seq<Event>)
    ensures forall e :: e in FirstBatch(owed) ==> e in owed
    ensures owed != [] ==> FirstBatch(owed) != []
  {
  }

  /** A batch on its way out was filed. */
  lemma ReadIsOk(s: State)
    requires Inv(s) && FirstBatch(Owed(s)) != []
    ensures BatchOk(s.minted, FirstBatch(Owed(s)))
  {
    hide OwedTo, Visible;
    OwedById(s, 0);
    FirstBatchIsPart(Owed(s));
    PostedIsOk(s, FirstBatch(Owed(s)));
  }

  lemma TakenKept(s: State, batch: seq<Event>)
    requires Inv(s) && batch in s.wire
    ensures Posts(Do(s, ServiceTakes(batch)))
  {
    hide Safe, Closed, Disk, Numbered, Ingest, OncePerKey;
    IngestExactlyOnce(s.ledger, batch, s.rig);
    assert BatchOk(s.minted, batch);
  }

  lemma OthersKept(s: State, batch: seq<Event>)
    requires Inv(s) && Enabled(s, OthersFile(batch))
    ensures Posts(Do(s, OthersFile(batch)))
  {
    hide Safe, Closed, Disk, Numbered, Ingest, OncePerKey;
    IngestExactlyOnce(s.ledger, batch, s.rig);
  }

  lemma PostsKept(s: State, step: Step)
    requires Inv(s) && Enabled(s, step)
    ensures Posts(Do(s, step))
  {
    hide Safe, Closed, Disk, Numbered, Ingest, OncePerKey, OwedTo, Compacted, Appended, Visible, IdsOf, Sendable,
      AllKnown, FirstBatch;
    var t := Do(s, step);
    match step {
      case ServiceTakes(b) =>
        TakenKept(s, b);
      case OthersFile(b) =>
        OthersKept(s, b);
      case PagePost =>
        FirstBatchIsPart(s.outbox);
        assert AllKnown(s.minted, FirstBatch(s.outbox)) by { PartIsKnown(s.minted, s.outbox, FirstBatch(s.outbox)); }
        PostedIsOk(s, FirstBatch(s.outbox));
      case UploaderRead =>
        if Sendable(FirstBatch(Owed(s))) {
          assert FirstBatch(Owed(s)) != [] by { SendableIsSome(FirstBatch(Owed(s))); }
          ReadIsOk(s);
        }
      case Emit(_, _) =>
        forall b | b in s.wire ensures BatchOk(t.minted, b) {
          assert BatchOk(s.minted, b);
          KnownStays(s, step, b);
        }
      case _ =>
    }
  }

  lemma SendableIsSome(b: seq<Event>)
    requires Sendable(b)
    ensures b != [] && AllNumbered(b)
  {
  }

  // ------------------------------------------------------------------ safety

  /** One write: a trusted event stays owed, unless the write says it is done with. */
  lemma WriteKeepsOwed(s: State, w: Written, id: EventId)
    requires Inv(s) && Enabled(s, JournalOp(w)) && id in s.acked && Owes(s.log, s.mark, id)
    ensures id in Done(s) || Owes(Do(s, JournalOp(w)).log, s.mark, id)
  {
    hide Visible, Live, Safe, Closed, Posts, Numbered, Appended, TextOk;
    var op, t := s.chain[0], Do(s, JournalOp(w));
    DiskKept(s, JournalOp(w));
    assert OpOk(s.minted, Done(s), s.acked, op);
    LiveIsKnown(s.minted, Done(s), Visible(s.log), id);
    if op != ForgetOp([]) && id !in Done(s) {
      AppendedKeeps(s.log, LineOf(op), w, id);
      LiveIsKnown(t.minted, Done(t), Visible(t.log), id);
    }
  }

  /** An append that returned is handed over by the next load exactly when the file could be read and
      ended in a newline and the mark had not already passed its seq. */
  lemma AppendIsOwedIff(s: State)
    requires Inv(s) && s.running && s.chain != [] && s.chain[0].AppendOp?
    ensures s.chain[0].e in Owed(Do(s, JournalOp(Durable))) <==>
              Readable(s.log) && s.log.tail == Clean && !Sent(s.chain[0].e, s.mark)
  {
    hide Visible, Live, Readable, Safe, Closed, Posts, Appended, OwedTo, TextOk;
    var e, t := s.chain[0].e, Do(s, JournalOp(Durable));
    assert OpOk(s.minted, Done(s), s.acked, s.chain[0]);
    DiskKept(s, JournalOp(Durable));
    StockKept(s, JournalOp(Durable));
    ReadableNextIff(s, JournalOp(Durable));
    OwedById(t, e.id.value);
    VisibleLive(s.log);
    AppendedLive(s.log, Put(e), Durable);
    if Readable(s.log) && e.id.value in Live(Visible(t.log)) {
      LiveIsKnown(t.minted, Done(t), Visible(t.log), e.id.value);
      if s.log.tail != Clean {
        NotYetInText(s, e);
        assert false;
      }
    }
  }

  lemma PutsAreOthers(s: State, e: Event, f: Event)
    requires Inv(s) && Readable(s.log) && s.chain != [] && s.chain[0] == AppendOp(e) && Put(f) in Visible(s.log)
    ensures f.id != e.id
  {
    hide Visible, Safe, Closed, Posts, Stock;
    assert OpOk(s.minted, Done(s), s.acked, s.chain[0]);
    assert LineOk(s.minted, Done(s), Put(f));
    assert TextBelow(Visible(s.log), SeqOrZero(e));
  }

  /** An event waiting to be written is not in the file's finished lines. */
  lemma NotYetInText(s: State, e: Event)
    requires Inv(s) && Readable(s.log) && s.chain != [] && s.chain[0] == AppendOp(e)
    ensures e.id.Some? && e.id.value !in Live(s.log.lines)
  {
    hide Live, Safe, Closed, Posts, Stock;
    assert OpOk(s.minted, Done(s), s.acked, s.chain[0]);
    if e.id.value in Live(s.log.lines) {
      LiveComesFromText(s.log.lines, e.id.value);
      var f := Live(s.log.lines)[e.id.value];
      assert Put(f) in Visible(s.log);
      PutsAreOthers(s, e, f);
      assert false;
    }
  }

  lemma FreshAppendIsOwed(s: State, w: Written, id: EventId)
    requires Inv(s) && Enabled(s, JournalOp(w)) && id !in s.acked && Trusted(Do(s, JournalOp(w)), id)
    ensures w == Durable && s.chain[0].AppendOp? && s.chain[0].e.id == Some(id) && Guard(s, s.chain[0].e)
    ensures s.chain[0].e == s.minted[id]
    ensures Owes(Do(s, JournalOp(w)).log, s.mark, id)
  {
    hide Visible, Live, Safe, Closed, Posts, Appended, OwedTo, TextOk, Numbered;
    assert OpOk(s.minted, Done(s), s.acked, s.chain[0]);
    var t := Do(s, JournalOp(w));
    AppendIsOwedIff(s);
    DiskKept(s, JournalOp(w));
    StockKept(s, JournalOp(w));
    OwedById(t, id);
  }

  lemma WriteKeepsSafe(s: State, w: Written)
    requires Inv(s) && Enabled(s, JournalOp(w))
    ensures Safe(Do(s, JournalOp(w)))
  {
    hide Owes, Stock, Disk, Numbered, Posts, Closed, Appended;
    var t := Do(s, JournalOp(w));
    forall id | Trusted(t, id) ensures id in Done(t) || Owes(t.log, t.mark, id) {
      if id in s.acked {
        assert Trusted(s, id);
        if Owes(s.log, s.mark, id) {
          WriteKeepsOwed(s, w, id);
        }
      } else {
        FreshAppendIsOwed(s, w, id);
      }
    }
  }

  /** Moving the mark retires only what has been answered for. */
  lemma ReplyKeepsSafe(s: State)
    requires Inv(s) && Enabled(s, UploaderReply)
    ensures Safe(Do(s, UploaderReply))
  {
    hide Visible, Live, Disk, Numbered, IdsOf;
    var t := Do(s, UploaderReply);
    var b := s.up.batch;
    assert IdsOf(b, s.rig) <= Done(s);
    forall id | Trusted(t, id) ensures id in Done(t) || Owes(t.log, t.mark, id) {
      assert Trusted(s, id);
      if Owes(s.log, s.mark, id) {
        OwesIsKnown(s, id);
        assert SeqOrZero(s.minted[id]) <= Highest(b) ==> id in Done(s);
      }
    }
  }

  lemma OwesIsKnown(s: State, id: EventId)
    requires Disk(s) && Owes(s.log, s.mark, id)
    ensures id in s.minted && Live(Visible(s.log))[id] == s.minted[id]
  {
    hide Visible, Live;
    LiveIsKnown(s.minted, Done(s), Visible(s.log), id);
  }

  lemma SafeKept(s: State, step: Step)
    requires Inv(s) && Enabled(s, step)
    ensures Safe(Do(s, step))
  {
    hide Ingest, OwedTo, Compacted, Appended, Closed, Disk, Posts, Numbered, Owes, Done;
    var t := Do(s, step);
    OnlyGrows(s, step);
    match step {
      case JournalOp(w) =>
        WriteKeepsSafe(s, w);
      case UploaderReply =>
        ReplyKeepsSafe(s);
      case Boot(_) =>
        forall id | Trusted(t, id) ensures id in Done(t) || Owes(t.log, t.mark, id) {
          assert Trusted(s, id);
          CompactedOwes(s.log, s.mark, id);
        }
      case UploaderRead =>
        forall id | Trusted(t, id) ensures id in Done(t) || Owes(t.log, t.mark, id) {
          assert Trusted(s, id);
          CompactedOwes(s.log, s.mark, id);
        }
      case _ =>
        forall id | Trusted(t, id) ensures id in Done(t) || Owes(t.log, t.mark, id) {
          assert Trusted(s, id);
        }
    }
  }

  // ------------------------------------------------- the uploader's batch

  lemma OwedSeqsDiffer(s: State)
    requires Inv(s)
    ensures OneSeqEach(Owed(s))
  {
    hide OwedTo, Live, Safe, Closed, Posts, Stock, Visible;
    var text := Visible(s.log);
    LiveIsKeyed(text);
    OwedIsExact(Live(text), s.mark, s.rig);
    if Readable(s.log) {
      forall e | e in Owed(s) ensures Put(e) in text {
        LiveComesFromText(text, e.id.value);
      }
      NoSeqTwice(text, Owed(s));
    }
  }

  lemma NoSeqTwice(text: seq<Line>, events: seq<Event>)
    requires TextNumbered(text) && forall e :: e in events ==> Put(e) in text
    ensures OneSeqEach(events)
  {
    forall x, y | x in events && y in events && x.seqNo == y.seqNo ensures x == y {
      assert Put(x) in text && Put(y) in text;
    }
  }

  /** The mark never retires unsent work: nothing still owed at or below the highest seq of the batch
      the uploader reads is left out of that batch. */
  lemma BatchLeavesNothingBelow(s: State, id: EventId)
    requires Inv(s) && Sendable(FirstBatch(Owed(s))) && Owes(s.log, s.mark, id) && id in s.minted
    requires SeqOrZero(s.minted[id]) <= Highest(FirstBatch(Owed(s)))
    ensures s.minted[id] in FirstBatch(Owed(s)) && id in IdsOf(FirstBatch(Owed(s)), s.rig)
  {
    hide OwedTo, Live, Safe, Closed, Posts, Visible, FirstBatch, Highest;
    var e := s.minted[id];
    LiveIsKeyed(Visible(s.log));
    OwedById(s, id);
    OwedSeqsDiffer(s);
    BatchIsDownwardClosed(Live(Visible(s.log)), s.mark, s.rig, e);
    var b := FirstBatch(Owed(s));
    var i :| 0 <= i < |b| && b[i] == e;
  }

  lemma ReadCloses(s: State)
    requires Inv(s) && Enabled(s, UploaderRead)
    ensures Closed(Do(s, UploaderRead))
  {
    hide Owes, Compacted, OwedTo, IdsOf, Highest, FirstBatch, Stock, Disk, Numbered, Posts, Safe;
    var t := Do(s, UploaderRead);
    if t.up.InFlight? {
      forall id | Trusted(t, id) && Owes(t.log, t.mark, id) && SeqOrZero(t.minted[id]) <= Highest(t.up.batch)
        ensures id in IdsOf(t.up.batch, t.rig)
      {
        CompactedOwes(s.log, s.mark, id);
        BatchLeavesNothingBelow(s, id);
      }
    }
  }

  /** What a write brings that was not owed before is the event it appends, or done with already. */
  lemma WriteBringsOnly(s: State, w: Written, id: EventId)
    requires Inv(s) && Enabled(s, JournalOp(w)) && Owes(Do(s, JournalOp(w)).log, s.mark, id) && id in s.acked
    ensures id in Done(s) || Owes(s.log, s.mark, id)
  {
    hide Visible, Live, Safe, Closed, Posts, Numbered, Appended, TextOk;
    var op, t := s.chain[0], Do(s, JournalOp(w));
    DiskKept(s, JournalOp(w));
    assert OpOk(s.minted, Done(s), s.acked, op);
    LiveIsKnown(t.minted, Done(t), Visible(t.log), id);
    if op != ForgetOp([]) {
      AppendedAdds(s.log, LineOf(op), w, id);
      if id in Live(Visible(s.log)) {
        LiveIsKnown(s.minted, Done(s), Visible(s.log), id);
      } else {
        UnfinishedForgetIsDone(s, id);
      }
    }
  }

  lemma UnfinishedForgetIsDone(s: State, id: EventId)
    requires Disk(s) && s.log.tail.Whole? && s.log.tail.line.Del? && id in s.log.tail.line.ids
    ensures id in Done(s)
  {
    assert s.log.tail.line in Visible(s.log);
    assert LineOk(s.minted, Done(s), s.log.tail.line);
  }

  lemma WriteKeepsClosed(s: State, w: Written)
    requires Inv(s) && Enabled(s, JournalOp(w))
    ensures Closed(Do(s, JournalOp(w)))
  {
    hide Owes, Stock, Disk, Numbered, Posts, Safe, Appended, Highest, IdsOf, Sendable;
    var t := Do(s, JournalOp(w));
    if t.up.InFlight? && Sendable(t.up.batch) {
      assert t.up.batch != [] && AllNumbered(t.up.batch) by { SendableIsSome(t.up.batch); }
      forall id | Trusted(t, id) && Owes(t.log, t.mark, id) && SeqOrZero(t.minted[id]) <= Highest(t.up.batch)
        ensures id in Done(t) || id in IdsOf(t.up.batch, t.rig)
      {
        if id in s.acked {
          WriteBringsOnly(s, w, id);
          assert id in s.minted && Trusted(s, id);
        } else {
          FreshAppendIsOwed(s, w, id);
          assert false;
        }
      }
    }
  }

  lemma ClosedKept(s: State, step: Step)
    requires Inv(s) && Enabled(s, step)
    ensures Closed(Do(s, step))
  {
    hide Ingest, OwedTo, Compacted, Appended, Safe, Disk, Posts, Numbered, Owes, Done, Highest, IdsOf, Sendable;
    var t := Do(s, step);
    OnlyGrows(s, step);
    match step {
      case JournalOp(w) =>
        WriteKeepsClosed(s, w);
      case UploaderRead =>
        ReadCloses(s);
      case Boot(_) =>
        forall id { CompactedOwes(s.log, s.mark, id); }
      case _ =>
        assert forall id :: Trusted(t, id) ==> Trusted(s, id);
    }
  }

  // ------------------------------------------------------------ the theorem

  lemma StepKeeps(s: State, step: Step)
    requires Inv(s) && Enabled(s, step)
    ensures Inv(Do(s, step))
  {
    hide Do, Enabled, Stock, Disk, Numbered, Posts, Safe, Closed;
    StockKept(s, step);
    DiskKept(s, step);
    NumberedKept(s, step);
    PostsKept(s, step);
    SafeKept(s, step);
    ClosedKept(s, step);
  }

  lemma {:induction false} RunKeeps(s: State, steps: seq<Step>, t: State)
    requires Inv(s) && Reaches(s, steps, t)
    ensures Inv(t)
    decreases |steps|
  {
    hide Inv, Do, Enabled;
    if steps != [] {
      StepKeeps(s, steps[0]);
      RunKeeps(Do(s, steps[0]), steps[1..], t);
    }
  }

  lemma InvAtFirst(rig: RigId)
    ensures Inv(Init(rig))
  {
  }

  /** One row, and it is this event. */
  ghost predicate InLedgerOnce(ledger: seq<Event>, e: Event) {
    exists i :: 0 <= i < |ledger| && OnlyRow(ledger, i, e)
  }

  ghost predicate OnlyRow(ledger: seq<Event>, i: nat, e: Event)
    requires i < |ledger|
  {
    ledger[i] == e && forall j :: 0 <= j < |ledger| && ledger[j].rig == e.rig && ledger[j].id == e.id ==> j == i
  }

  lemma HeldIsOnce(s: State, id: EventId)
    requires Stock(s) && Posts(s) && id in IdsOf(s.ledger, s.rig)
    ensures id in s.minted && InLedgerOnce(s.ledger, s.minted[id])
  {
    var i :| 0 <= i < |s.ledger| && s.ledger[i].rig == Some(s.rig) && s.ledger[i].id == Some(id);
    assert s.ledger[i] in s.ledger;
    assert OnlyRow(s.ledger, i, s.minted[id]);
  }

  /** Some write of the run stops inside a character. */
  ghost predicate EverCut(s: State, steps: seq<Step>)
    decreases |steps|
  {
    steps != [] && Enabled(s, steps[0]) && (CutsInside(s, steps[0]) || EverCut(Do(s, steps[0]), steps[1..]))
  }

  /** A file can be read exactly as long as no write has stopped inside a character. */
  lemma {:induction false} ReadableIffNeverCut(s: State, steps: seq<Step>, t: State)
    requires Reaches(s, steps, t)
    ensures Readable(t.log) <==> Readable(s.log) && !EverCut(s, steps)
    decreases |steps|
  {
    hide Do, Enabled, CutsInside, Readable;
    if steps != [] {
      ReadableNextIff(s, steps[0]);
      ReadableIffNeverCut(Do(s, steps[0]), steps[1..], t);
    }
  }

  /** However the run went — crashes, torn and failed writes, lost replies, late and repeated arrivals,
      two uploaders, any number of compactions — an event whose append returned is handed over by the
      next load, or is in the ledger exactly once, or was refused, unless it was exposed; or else some
      write stopped inside a character, and it lies on a disk that no load can read. */
  lemma NothingAcknowledgedIsLost(rig: RigId, steps: seq<Step>, s: State, id: EventId)
    requires Reaches(Init(rig), steps, s) && id in s.acked && id !in s.exposed
    ensures id in s.minted
    ensures || s.minted[id] in Owed(s) || InLedgerOnce(s.ledger, s.minted[id]) || id in s.refused
            || (EverCut(Init(rig), steps) && Owes(s.log, s.mark, id))
  {
    hide Reaches, OwedTo, Visible, Owes, InLedgerOnce, IdsOf, Init, Readable, EverCut;
    InvAtFirst(rig);
    RunKeeps(Init(rig), steps, s);
    assert Readable(s.log) || EverCut(Init(rig), steps) by {
      ReadableIffNeverCut(Init(rig), steps, s);
      assert Readable(Init(rig).log) by { EmptyIsReadable(rig); }
    }
    assert Trusted(s, id);
    OwedById(s, id);
    if id in IdsOf(s.ledger, s.rig) {
      HeldIsOnce(s, id);
    }
  }

  lemma EmptyIsReadable(rig: RigId)
    ensures Readable(Init(rig).log)
  {
  }
}
