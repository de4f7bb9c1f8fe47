/** The journal as the rig's shell and its uploader use it: an object over one file and one mark. */
module Journals {
  import opened JournalLog
  import opened Options

  // --------------------------------------------------------- what is owed

  /** This rig's, and not handed over already. */
  predicate Mine(e: Event, mark: Option<Mark>, rig: RigId) {
    e.rig == Some(rig) && !Sent(e, mark)
  }

  function Filtered(s: seq<Event>, mark: Option<Mark>, rig: RigId): seq<Event> {
    if s == [] then []
    else Filtered(s[..|s| - 1], mark, rig) + if Mine(s[|s| - 1], mark, rig) then [s[|s| - 1]] else []
  }

  /** What one rig still owes, oldest first. */
  function OwedTo(live: map<EventId, Event>, mark: Option<Mark>, rig: RigId): seq<Event> {
    BySeq(Filtered(Values(live), mark, rig))
  }

  lemma {:induction false} FilteredHas(s: seq<Event>, mark: Option<Mark>, rig: RigId)
    requires DistinctIds(s)
    ensures DistinctIds(Filtered(s, mark, rig))
    ensures forall e :: e in Filtered(s, mark, rig) <==> e in s && Mine(e, mark, rig)
  {
    if s != [] {
      var init, last := s[..|s| - 1], s[|s| - 1];
      assert s == init + [last];
      FilteredHas(init, mark, rig);
      var f := Filtered(init, mark, rig);
      forall i | 0 <= i < |f| ensures f[i].id != last.id {
        assert f[i] in f;
        var k :| 0 <= k < |init| && init[k] == f[i];
      }
    }
  }

  /** Oldest first, each event once, and exactly the events of this rig that are live and unsent. */
  lemma OwedIsExact(live: map<EventId, Event>, mark: Option<Mark>, rig: RigId)
    requires Keyed(live)
    ensures var owed := OwedTo(live, mark, rig);
            && Ascending(owed) && DistinctIds(owed)
            && forall e :: e in owed <==>
                 e.id.Some? && e.id.value in live && live[e.id.value] == e && Mine(e, mark, rig)
  {
    var all := Values(live);
    ValuesListAll(live);
    FilteredHas(all, mark, rig);
    BySeqSorts(Filtered(all, mark, rig));
    forall e ensures e in all <==> e.id.Some? && e.id.value in live && live[e.id.value] == e {
      if e in all {
        var i :| 0 <= i < |all| && all[i] == e;
      }
    }
  }

  /** What a load hands over, if it can read the file at all. */
  function Loaded(log: Log, mark: Option<Mark>, rig: RigId): Option<seq<Event>> {
    if Readable(log) then Some(OwedTo(Live(Visible(log)), mark, rig)) else None
  }

  /** Not yet accounted for by the mark, case by case: there is none, it is another rig's, or it stops short
      of this event. An event with no seq is beyond every mark but the highest there is. */
  predicate StillToSend(e: Event, mark: Option<Mark>, rig: RigId) {
    mark == None || mark.value.rig != rig
    || (match e.seqNo case Some(n) => n > mark.value.upTo case None => mark.value.upTo < I64_MAX)
  }

  /** No later in the rig's own numbering; an event with no seq counts as the very first. */
  predicate NoLater(e: Event, f: Event) {
    match (e.seqNo, f.seqNo)
    case (Some(m), Some(n)) => m <= n
    case (Some(m), None) => m <= 0
    case (None, Some(n)) => 0 <= n
    case (None, None) => true
  }

  /** A load hands events over oldest first. */
  lemma LoadIsOldestFirst(log: Log, mark: Option<Mark>, rig: RigId, i: nat, j: nat)
    requires Readable(log) && Loaded(log, mark, rig).Some? && i < j < |Loaded(log, mark, rig).value|
    ensures NoLater(Loaded(log, mark, rig).value[i], Loaded(log, mark, rig).value[j])
  {
    hide OwedTo, Live, Visible;
    LiveIsKeyed(Visible(log));
    OwedIsExact(Live(Visible(log)), mark, rig);
  }

  /** What a load of a readable file hands over, read off its lines: each of this rig's events whose last
      line puts it, as that line puts it, unless the mark accounts for it. */
  lemma LoadReadsTheLines(log: Log, mark: Option<Mark>, rig: RigId, e: Event)
    requires Readable(log)
    ensures Loaded(log, mark, rig).Some?
    ensures e in Loaded(log, mark, rig).value <==>
              && e.id.Some? && e.rig == Some(rig) && StillToSend(e, mark, rig)
              && exists i :: LastPut(Visible(log), i, e.id.value) && Visible(log)[i].event == e
  {
    hide OwedTo, Live, Visible;
    var text := Visible(log);
    LiveIsKeyed(text);
    OwedIsExact(Live(text), mark, rig);
    if e.id.Some? {
      LiveReadsTheLines(text, e.id.value);
    }
  }

  /** A load hands over the same events however often the file has been loaded before. */
  lemma LoadingIsRepeatable(log: Log, mark: Option<Mark>, rig: RigId, e: Event)
    ensures var first, again := Loaded(log, mark, rig), Loaded(Compacted(log, mark), mark, rig);
            && (again.Some? <==> first.Some?)
            && (first.Some? ==> (e in again.value <==> e in first.value))
  {
    LiveIsKeyed(Visible(log));
    LiveIsKeyed(Visible(Compacted(log, mark)));
    CompactionKeepsMeaning(log, mark);
    OwedIsExact(Live(Visible(log)), mark, rig);
    OwedIsExact(Live(Visible(Compacted(log, mark))), mark, rig);
  }

  // ------------------------------------------------------------ the object

  class Journal {
    var log: Log
    var mark: Option<Mark>

    constructor ()
      ensures log == Log([], Clean) && mark == None
    {
      log, mark := Log([], Clean), None;
    }

    /** Success is exactly a whole, synced write; how far the write gets is the disk's to say. */
    method AppendEvent(e: Event, disk: Written) returns (ok: bool)
      modifies this`log
      ensures log == Appended(old(log), Put(e), disk) && ok == (disk == Durable)
    {
      ok := AppendLine(Put(e), disk);
    }

    /** With ids to forget, one more line like any other; with none, the file is not touched. */
    method ForgetEvents(ids: seq<EventId>, disk: Written) returns (ok: bool)
      modifies this`log
      ensures ids == [] ==> log == old(log) && ok
      ensures ids != [] ==> log == Appended(old(log), Del(ids), disk) && ok == (disk == Durable)
    {
      if ids == [] {
        return true;
      }
      ok := AppendLine(Del(ids), disk);
    }

    method AppendLine(line: Record, disk: Written) returns (ok: bool)
      modifies this`log
      ensures log == Appended(old(log), line, disk) && ok == (disk == Durable)
    {
      log := Appended(log, line, disk);
      ok := disk == Durable;
    }

    /** The mark only ever moves forward for its rig; another rig's mark is replaced. */
    method SetMark(rig: RigId, upTo: int)
      modifies this`mark
      ensures mark == Marked(old(mark), rig, upTo)
      ensures mark.Some? && mark.value.rig == rig && mark.value.upTo >= upTo
      ensures old(mark).Some? && old(mark).value.rig == rig ==> mark.value.upTo >= old(mark).value.upTo
    {
      if mark.Some? && mark.value.rig == rig && mark.value.upTo >= upTo {
        return;
      }
      mark := Some(Mark(rig, upTo));
    }

    /** Rewrite the file as what is still owed, unless it already says exactly that. */
    method Compact(live: map<EventId, Event>, lines: nat)
      requires Readable(log) && live == Live(Visible(log)) && lines == Counted(Visible(log))
      modifies this`log
      ensures log == Compacted(old(log), mark)
      ensures Live(Visible(log)) == Unsent(Live(Visible(old(log))), mark)
    {
      CompactionKeepsMeaning(log, mark);
      var ordered := Ordered(live, mark);
      if |ordered| == lines {
        return;
      }
      log := Log(Puts(ordered), Clean);
    }

    /** Fails exactly when some line is not text, and then changes nothing. Otherwise the answer is this
        rig's live, unsent events, each once and in order, and the file is left meaning just what is unsent. */
    method Load(rig: RigId) returns (held: Option<seq<Event>>)
      modifies this`log
      ensures held == Loaded(old(log), mark, rig)
      ensures held.None? <==> Undecodable in Visible(old(log))
      ensures log == Compacted(old(log), mark) && (held.None? ==> log == old(log))
      ensures held.Some? ==>
                && Ascending(held.value) && DistinctIds(held.value)
                && forall e :: e in held.value <==> e.id.Some? && e.id.value in Live(Visible(log))
                                                    && Live(Visible(log))[e.id.value] == e && e.rig == Some(rig)
    {
      var read := Replay(log);
      if read == None {
        return None;
      }
      var live := read.value.live;
      var all, mine: seq<Event> := Values(live), [];
      for i := 0 to |all|
        invariant mine == Filtered(all[..i], mark, rig)
      {
        assert all[..i + 1][..i] == all[..i];
        if all[i].rig == Some(rig) && !Sent(all[i], mark) {
          mine := mine + [all[i]];
        }
      }
      assert all[..|all|] == all;
      LiveIsKeyed(Visible(log));
      OwedIsExact(live, mark, rig);
      Compact(live, read.value.lines);
      return Some(BySeq(mine));
    }
  }

  // ----------------------------------------------------------- the uploader

  const BATCH := 100

  datatype Reply = NoReply | Status(code: nat)

  datatype Pass = Idle | SentEvents(count: nat) | Refused(count: nat) | Failed

  function FirstBatch(owed: seq<Event>): (b: seq<Event>)
    ensures b <= owed && |b| == if |owed| > 100 then 100 else |owed|
  {
    if |owed| <= BATCH then owed else owed[..BATCH]
  }

  predicate AllNumbered(s: seq<Event>) {
    forall i :: 0 <= i < |s| ==> s[i].seqNo.Some?
  }

  /** The highest seq in a batch. */
  function Highest(s: seq<Event>): (h: int)
    requires s != [] && AllNumbered(s)
    ensures forall i :: 0 <= i < |s| ==> s[i].seqNo.value <= h
    ensures exists i :: 0 <= i < |s| && s[i].seqNo.value == h
  {
    if |s| == 1 then s[0].seqNo.value
    else
      var h := Highest(s[..|s| - 1]);
      if s[|s| - 1].seqNo.value > h then s[|s| - 1].seqNo.value else h
  }

  lemma HighestGrows(s: seq<Event>, e: Event)
    requires AllNumbered(s) && e.seqNo.Some?
    ensures AllNumbered(s + [e])
    ensures Highest(s + [e]) ==
              if s == [] then e.seqNo.value else if e.seqNo.value > Highest(s) then e.seqNo.value else Highest(s)
  {
    assert (s + [e])[..|s + [e]| - 1] == s;
  }

  /** No two events of the sequence share a seq. */
  ghost predicate OneSeqEach(s: seq<Event>) {
    forall x, y :: x in s && y in s && x.seqNo == y.seqNo ==> x == y
  }

  lemma LaterIsHigher(owed: seq<Event>, i: nat, k: nat)
    requires Ascending(owed) && DistinctIds(owed) && OneSeqEach(owed) && i < k < |owed|
    requires owed[i].seqNo.Some? && owed[k].seqNo.Some?
    ensures owed[i].seqNo.value < owed[k].seqNo.value
  {
    assert SeqOrZero(owed[i]) <= SeqOrZero(owed[k]);
    assert owed[i] in owed && owed[k] in owed;
    assert owed[i].id != owed[k].id;
  }

  lemma PrefixIsDownwardClosed(owed: seq<Event>, n: nat, e: Event)
    requires Ascending(owed) && DistinctIds(owed) && OneSeqEach(owed)
    requires 0 < n <= |owed| && AllNumbered(owed[..n])
    requires e in owed && e.seqNo.Some? && e.seqNo.value <= Highest(owed[..n])
    ensures e in owed[..n]
  {
    hide OneSeqEach, Ascending, DistinctIds;
    var i :| 0 <= i < |owed[..n]| && owed[..n][i].seqNo.value == Highest(owed[..n]);
    assert owed[..n][i] == owed[i];
    forall k | n <= k < |owed| ensures owed[k] != e {
      if owed[k].seqNo.Some? {
        LaterIsHigher(owed, i, k);
      }
    }
    var k :| 0 <= k < |owed| && owed[k] == e;
    assert owed[..n][k] == e;
  }

  /** The batch is downward closed: nothing owed at or below its highest seq is left out, so long as
      no two owed events share a seq. */
  lemma BatchIsDownwardClosed(live: map<EventId, Event>, mark: Option<Mark>, rig: RigId, e: Event)
    requires Keyed(live) && OneSeqEach(OwedTo(live, mark, rig))
    requires var owed := OwedTo(live, mark, rig);
             && e in owed && e.seqNo.Some?
             && FirstBatch(owed) != [] && AllNumbered(FirstBatch(owed))
             && e.seqNo.value <= Highest(FirstBatch(owed))
    ensures e in FirstBatch(OwedTo(live, mark, rig))
  {
    hide OwedTo;
    var owed := OwedTo(live, mark, rig);
    OwedIsExact(live, mark, rig);
    assert FirstBatch(owed) == owed[..|FirstBatch(owed)|];
    PrefixIsDownwardClosed(owed, |FirstBatch(owed)|, e);
  }

  lemma OneUnnumbered(batch: seq<Event>, i: nat)
    requires i < |batch| && batch[i].seqNo == None
    ensures !AllNumbered(batch)
  {
  }

  /** The scan before a batch is sent: its highest seq, or nothing when some event has none. */
  method HighestOf(batch: seq<Event>) returns (highest: Option<int>)
    requires batch != []
    ensures highest == if AllNumbered(batch) then Some(Highest(batch)) else None
  {
    hide AllNumbered, Highest;
    highest := None;
    assert AllNumbered([]) by { NoneUnnumbered(); }
    for i := 0 to |batch|
      invariant AllNumbered(batch[..i])
      invariant highest == if i == 0 then None else Some(Highest(batch[..i]))
    {
      if batch[i].seqNo == None {
        OneUnnumbered(batch, i);
        return None;
      }
      HighestGrows(batch[..i], batch[i]);
      assert batch[..i + 1] == batch[..i] + [batch[i]];
      highest := if highest.Some? && highest.value >= batch[i].seqNo.value then highest else batch[i].seqNo;
    }
    assert batch[..|batch|] == batch;
  }

  lemma NoneUnnumbered()
    ensures AllNumbered([])
  {
  }

  ghost predicate PassDone(held: Option<seq<Event>>, reply: Reply, rig: RigId, before: Option<Mark>,
                           after: Option<Mark>, pass: Pass, posted: seq<Event>) {
    if held == None then pass == Failed && posted == [] && after == before
    else PassOver(held.value, reply, rig, before, after, pass, posted)
  }

  ghost predicate PassOver(owed: seq<Event>, reply: Reply, rig: RigId, before: Option<Mark>, after: Option<Mark>,
                           pass: Pass, posted: seq<Event>) {
    var batch := FirstBatch(owed);
    if owed == [] then pass == Idle && posted == [] && after == before
    else if !AllNumbered(batch) then pass == Failed && posted == [] && after == before
    else
      && posted == batch
      && match reply
         case NoReply => pass == Failed && after == before
         case Status(code) =>
           if 200 <= code < 300 then pass == SentEvents(|batch|) && after == Marked(before, rig, Highest(batch))
           else if code == 422 then pass == Refused(|batch|) && after == Marked(before, rig, Highest(batch))
           else pass == Failed && after == before
  }

  class Uploader {
    const journal: Journal
    const rig: RigId

    constructor (journal: Journal, rig: RigId)
      ensures this.journal == journal && this.rig == rig
    {
      this.journal, this.rig := journal, rig;
    }

    /** One pass. Nothing is sent from a file that cannot be read, nor when an event has no seq. The mark
        moves only after an answer, and only to the highest seq answered for, accepted or refused. */
    method SendEvents(reply: Reply) returns (pass: Pass, posted: seq<Event>)
      modifies journal
      ensures journal.log == Compacted(old(journal.log), old(journal.mark))
      ensures PassDone(Loaded(old(journal.log), old(journal.mark), rig), reply, rig,
                       old(journal.mark), journal.mark, pass, posted)
    {
      hide OwedTo, Compacted, Live;
      var held := journal.Load(rig);
      if held == None {
        return Failed, [];
      }
      var owed := held.value;
      if owed == [] {
        return Idle, [];
      }
      var batch := FirstBatch(owed);
      var highest := HighestOf(batch);
      if highest == None {
        return Failed, [];
      }
      posted := batch;
      match reply {
        case NoReply => pass := Failed;
        case Status(code) =>
          if 200 <= code < 300 {
            journal.SetMark(rig, highest.value);
            pass := SentEvents(|batch|);
          } else if code == 422 {
            journal.SetMark(rig, highest.value);
            pass := Refused(|batch|);
          } else {
            pass := Failed;
          }
      }
    }
  }
}
