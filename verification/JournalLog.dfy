/** The rig's disk journal: an append-only log with tombstones, replayed into what is still owed and
    compacted on the way past. What a log means, what compaction keeps, and what a torn write costs. */
module JournalLog {
  import opened Options

  // Ids stand for the strings the program uses; they are ordered as its sorted map orders them.
  type EventId = nat
  type RigId = nat

  // Any field may be missing from a line somebody else wrote.
  datatype Event = Event(id: Option<EventId>, rig: Option<RigId>, seqNo: Option<int>, body: nat)

  // `Other` parses but says nothing to the replay; `Unreadable` is text that does not parse; `Undecodable`
  // is not text at all; `Blank` is not counted.
  datatype Line = Put(event: Event) | Del(ids: seq<EventId>) | Other | Unreadable | Undecodable | Blank

  /** Whatever gets its last brace onto the disk is text. */
  type Record = line: Line | line != Undecodable witness Other

  /** What follows the last newline: nothing, a piece of a record, a piece that stops inside a character,
      or a record lacking only its newline. A piece leaves a brace open, so it never parses, whatever is
      written after it; one that stops inside a character is never even text. */
  datatype Tail = Clean | Fragment | Broken | Whole(line: Record)

  datatype Log = Log(lines: seq<Line>, tail: Tail)

  datatype Mark = Mark(rig: RigId, upTo: int)

  const I64_MAX := 0x7FFF_FFFF_FFFF_FFFF

  // ------------------------------------------------------------- replaying

  /** The lines a reader sees; the last needs no newline. */
  function Visible(log: Log): seq<Line> {
    match log.tail
    case Clean => log.lines
    case Fragment => log.lines + [Unreadable]
    case Broken => log.lines + [Undecodable]
    case Whole(line) => log.lines + [line]
  }

  /** One line that is not text fails the whole reading, and with it every load. */
  predicate Readable(log: Log) {
    Undecodable !in Visible(log)
  }

  function Apply(live: map<EventId, Event>, line: Line): map<EventId, Event> {
    match line
    case Put(e) => if e.id.Some? then live[e.id.value := e] else live
    case Del(ids) => live - (set id | id in ids)
    case _ => live
  }

  function Live(lines: seq<Line>): map<EventId, Event> {
    if lines == [] then map[] else Apply(Live(lines[..|lines| - 1]), lines[|lines| - 1])
  }

  function Counted(lines: seq<Line>): nat {
    if lines == [] then 0
    else Counted(lines[..|lines| - 1]) + if lines[|lines| - 1] == Blank then 0 else 1
  }

  lemma LiveGrows(lines: seq<Line>, line: Line)
    ensures Live(lines + [line]) == Apply(Live(lines), line)
    ensures Counted(lines + [line]) == Counted(lines) + if line == Blank then 0 else 1
  {
    assert (lines + [line])[..|lines|] == lines;
  }

  /** The line is about this event: it puts it, or forgets it. */
  predicate Names(line: Line, id: EventId) {
    match line
    case Put(e) => e.id == Some(id)
    case Del(ids) => id in ids
    case _ => false
  }

  /** Line i puts the event, and no later line names it. */
  ghost predicate LastPut(text: seq<Line>, i: int, id: EventId) {
    && 0 <= i < |text| && text[i].Put? && text[i].event.id == Some(id)
    && forall k :: i < k < |text| ==> !Names(text[k], id)
  }

  /** Read off the lines alone: an event is live exactly when the last line to name it puts it, and it is
      as that line puts it. */
  lemma {:induction false} LiveReadsTheLines(text: seq<Line>, id: EventId)
    ensures id in Live(text) <==> exists i :: LastPut(text, i, id)
    ensures forall i :: LastPut(text, i, id) ==> id in Live(text) && Live(text)[id] == text[i].event
  {
    if text != [] {
      var init, last := text[..|text| - 1], text[|text| - 1];
      LiveReadsTheLines(init, id);
      forall i | LastPut(text, i, id) && i < |init| ensures LastPut(init, i, id) && !Names(last, id) {
        assert forall k :: i < k < |init| ==> init[k] == text[k];
      }
      if Names(last, id) {
        if last.Put? {
          assert LastPut(text, |init|, id);
        }
      } else if i :| LastPut(init, i, id) {
        assert LastPut(text, i, id);
      }
    }
  }

  datatype Replayed = Replayed(live: map<EventId, Event>, lines: nat)

  method Replay(log: Log) returns (read: Option<Replayed>)
    ensures read.Some? <==> Readable(log)
    ensures read.Some? ==> read.value == Replayed(Live(Visible(log)), Counted(Visible(log)))
  {
    hide Live, Counted, Visible;
    var text := Visible(log);
    var live: map<EventId, Event>, lines: nat := map[], 0;
    NothingRead();
    for i := 0 to |text|
      invariant live == Live(text[..i]) && lines == Counted(text[..i])
      invariant Undecodable !in text[..i]
    {
      LiveGrows(text[..i], text[i]);
      assert text[..i + 1] == text[..i] + [text[i]];
      if text[i] == Undecodable {
        return None;
      }
      if text[i] == Blank {
        continue;
      }
      lines := lines + 1;
      match text[i] {
        case Put(e) =>
          if e.id.Some? {
            live := live[e.id.value := e];
          }
        case Del(ids) =>
          live := RemoveAll(live, ids);
        case _ =>
      }
    }
    assert text[..|text|] == text;
    return Some(Replayed(live, lines));
  }

  lemma NothingRead()
    ensures Live([]) == map[] && Counted([]) == 0
  {
  }

  method RemoveAll(held: map<EventId, Event>, ids: seq<EventId>) returns (live: map<EventId, Event>)
    ensures live == held - (set id | id in ids)
  {
    live := held;
    for i := 0 to |ids|
      invariant live == held - (set id | id in ids[..i])
    {
      assert ids[..i + 1] == ids[..i] + [ids[i]];
      live := live - {ids[i]};
    }
    assert ids[..|ids|] == ids;
  }

  // ------------------------------------------------------------- the mark

  function SeqOrMax(e: Event): int {
    if e.seqNo.Some? then e.seqNo.value else I64_MAX
  }

  function SeqOrZero(e: Event): int {
    if e.seqNo.Some? then e.seqNo.value else 0
  }

  /** Handed over already: at or below the mark, and of the rig the mark was recorded for. */
  predicate Sent(e: Event, mark: Option<Mark>) {
    mark.Some? && e.rig == Some(mark.value.rig) && SeqOrMax(e) <= mark.value.upTo
  }

  function Unsent(live: map<EventId, Event>, mark: Option<Mark>): map<EventId, Event> {
    map id | id in live && !Sent(live[id], mark) :: live[id]
  }

  /** Only ever forward, for one rig. */
  function Marked(mark: Option<Mark>, rig: RigId, upTo: int): Option<Mark> {
    if mark.Some? && mark.value.rig == rig && mark.value.upTo >= upTo then mark else Some(Mark(rig, upTo))
  }

  // -------------------------------------------------------------- in order

  predicate IsLeast(m: nat, s: set<nat>) {
    m in s && forall x :: x in s ==> m <= x
  }

  lemma {:induction false} FindLeast(s: set<nat>) returns (m: nat)
    requires s != {}
    ensures IsLeast(m, s)
  {
    var y :| y in s;
    if s == {y} {
      m := y;
    } else {
      var l := FindLeast(s - {y});
      m := if l < y then l else y;
      forall x | x in s ensures m <= x {
        if x != y {
          assert x in s - {y};
        }
      }
    }
  }

  lemma LeastExists(s: set<nat>)
    requires s != {}
    ensures exists m :: IsLeast(m, s)
  {
    var m := FindLeast(s);
  }

  function Least(s: set<nat>): (m: nat)
    requires s != {}
    ensures m in s && forall x :: x in s ==> m <= x
  {
    LeastExists(s);
    var m :| IsLeast(m, s);
    m
  }

  /** A map's values in the order of their keys. */
  function Values(live: map<EventId, Event>): (r: seq<Event>)
    ensures |r| == |live|
    decreases |live|
  {
    if live == map[] then []
    else
      var k := Least(live.Keys);
      assert |live - {k}| == |live| - 1 by { assert (live - {k}).Keys == live.Keys - {k}; }
      [live[k]] + Values(live - {k})
  }

  /** A stable insertion: before everything with an equal or greater key. */
  function Insert(e: Event, s: seq<Event>): (r: seq<Event>)
    ensures |r| == |s| + 1
  {
    if s == [] || SeqOrZero(e) <= SeqOrZero(s[0]) then [e] + s
    else [s[0]] + Insert(e, s[1..])
  }

  function BySeq(s: seq<Event>): (r: seq<Event>)
    ensures |r| == |s|
  {
    if s == [] then [] else Insert(s[0], BySeq(s[1..]))
  }

  ghost predicate Ascending(s: seq<Event>) {
    forall i, j :: 0 <= i < j < |s| ==> SeqOrZero(s[i]) <= SeqOrZero(s[j])
  }

  ghost predicate DistinctIds(s: seq<Event>) {
    && (forall i :: 0 <= i < |s| ==> s[i].id.Some?)
    && (forall i, j :: 0 <= i < j < |s| ==> s[i].id != s[j].id)
  }

  lemma {:induction false} InsertHas(e: Event, s: seq<Event>, x: Event)
    ensures x in Insert(e, s) <==> x == e || x in s
  {
    if s == [] || SeqOrZero(e) <= SeqOrZero(s[0]) {
    } else {
      InsertHas(e, s[1..], x);
      assert s == [s[0]] + s[1..];
    }
  }

  lemma {:induction false} InsertKeepsOrder(e: Event, s: seq<Event>)
    requires Ascending(s)
    ensures Ascending(Insert(e, s))
  {
    if s == [] || SeqOrZero(e) <= SeqOrZero(s[0]) {
    } else {
      InsertKeepsOrder(e, s[1..]);
      var r := Insert(e, s[1..]);
      forall i | 0 <= i < |r| ensures SeqOrZero(s[0]) <= SeqOrZero(r[i]) {
        InsertHas(e, s[1..], r[i]);
        assert r[i] in r;
        assert s == [s[0]] + s[1..];
      }
    }
  }

  lemma {:induction false} InsertKeepsDistinct(e: Event, s: seq<Event>)
    requires DistinctIds(s) && e.id.Some? && forall i :: 0 <= i < |s| ==> s[i].id != e.id
    ensures DistinctIds(Insert(e, s))
  {
    if s == [] || SeqOrZero(e) <= SeqOrZero(s[0]) {
    } else {
      InsertKeepsDistinct(e, s[1..]);
      var r := Insert(e, s[1..]);
      forall i | 0 <= i < |r| ensures s[0].id != r[i].id {
        InsertHas(e, s[1..], r[i]);
        assert r[i] in r;
        if r[i] != e {
          var k :| 0 <= k < |s[1..]| && s[1..][k] == r[i];
          assert s[k + 1] == r[i];
        }
      }
    }
  }

  /** Sorting keeps every event once, oldest first. */
  lemma {:induction false} BySeqSorts(s: seq<Event>)
    requires DistinctIds(s)
    ensures Ascending(BySeq(s)) && DistinctIds(BySeq(s))
    ensures forall x :: x in BySeq(s) <==> x in s
  {
    if s != [] {
      BySeqSorts(s[1..]);
      var rest := BySeq(s[1..]);
      InsertKeepsOrder(s[0], rest);
      forall i | 0 <= i < |rest| ensures rest[i].id != s[0].id {
        assert rest[i] in rest;
        var k :| 0 <= k < |s[1..]| && s[1..][k] == rest[i];
        assert s[k + 1] == rest[i];
      }
      InsertKeepsDistinct(s[0], rest);
      forall x ensures x in BySeq(s) <==> x in s {
        InsertHas(s[0], rest, x);
        assert s == [s[0]] + s[1..];
      }
    }
  }

  ghost predicate Keyed(live: map<EventId, Event>) {
    forall id :: id in live ==> live[id].id == Some(id)
  }

  lemma {:induction false} LiveIsKeyed(lines: seq<Line>)
    ensures Keyed(Live(lines))
  {
    if lines != [] {
      LiveIsKeyed(lines[..|lines| - 1]);
    }
  }

  /** The sequence holds exactly the map's events, each once. */
  ghost predicate ListsAll(s: seq<Event>, live: map<EventId, Event>) {
    && DistinctIds(s) && |s| == |live|
    && (forall i :: 0 <= i < |s| ==> s[i].id.Some? && s[i].id.value in live && live[s[i].id.value] == s[i])
    && (forall id :: id in live ==> live[id] in s)
  }

  lemma ListsOneMore(live: map<EventId, Event>, k: EventId, tail: seq<Event>)
    requires Keyed(live) && k in live && ListsAll(tail, live - {k}) && |live - {k}| == |live| - 1
    ensures ListsAll([live[k]] + tail, live)
  {
    hide Keyed;
    var all, rest := [live[k]] + tail, live - {k};
    assert live[k].id == Some(k) by { KeyedAt(live, k); }
    forall i | 0 <= i < |tail|
      ensures tail[i].id.value in live && live[tail[i].id.value] == tail[i] && tail[i].id != Some(k)
    {
      assert tail[i].id.value in rest;
    }
    assert forall i :: 0 < i < |all| ==> all[i] == tail[i - 1];
    forall id | id in live ensures live[id] in all {
      if id != k {
        assert id in rest && rest[id] in tail;
      }
    }
  }

  lemma KeyedAt(live: map<EventId, Event>, k: EventId)
    requires Keyed(live) && k in live
    ensures live[k].id == Some(k)
  {
  }

  lemma {:induction false} ValuesListAll(live: map<EventId, Event>)
    requires Keyed(live)
    ensures ListsAll(Values(live), live)
    decreases |live|
  {
    hide ListsAll;
    if live != map[] {
      var k := Least(live.Keys);
      assert |live - {k}| == |live| - 1 by { assert (live - {k}).Keys == live.Keys - {k}; }
      ValuesListAll(live - {k});
      ListsOneMore(live, k, Values(live - {k}));
    } else {
      NothingListsNothing();
    }
  }

  lemma NothingListsNothing()
    ensures ListsAll([], map[])
  {
  }

  /** What a rewrite would write: everything still owed, oldest first. */
  function Ordered(live: map<EventId, Event>, mark: Option<Mark>): seq<Event> {
    BySeq(Values(Unsent(live, mark)))
  }

  lemma OrderedListsUnsent(live: map<EventId, Event>, mark: Option<Mark>)
    requires Keyed(live)
    ensures ListsAll(Ordered(live, mark), Unsent(live, mark)) && Ascending(Ordered(live, mark))
  {
    var owed := Unsent(live, mark);
    ValuesListAll(owed);
    BySeqSorts(Values(owed));
    var s := Ordered(live, mark);
    forall i | 0 <= i < |s| ensures s[i].id.Some? && s[i].id.value in owed && owed[s[i].id.value] == s[i] {
      assert s[i] in s;
    }
  }

  // ------------------------------------------------------------ compaction

  function Puts(s: seq<Event>): (r: seq<Line>)
    ensures |r| == |s|
  {
    seq(|s|, i requires 0 <= i < |s| => Put(s[i]))
  }

  /** A load that cannot read does not get as far as rewriting. One that can has a shortcut: as many owed
      events as lines means there is nothing to drop. */
  function Rewrites(log: Log, mark: Option<Mark>): bool {
    Readable(log) && |Ordered(Live(Visible(log)), mark)| != Counted(Visible(log))
  }

  function Compacted(log: Log, mark: Option<Mark>): Log {
    if Rewrites(log, mark) then Log(Puts(Ordered(Live(Visible(log)), mark)), Clean) else log
  }

  lemma {:induction false} LiveOfPuts(s: seq<Event>)
    requires DistinctIds(s)
    ensures Counted(Puts(s)) == |s|
    ensures forall i :: 0 <= i < |s| ==> s[i].id.value in Live(Puts(s)) && Live(Puts(s))[s[i].id.value] == s[i]
    ensures forall id :: id in Live(Puts(s)) ==> exists i :: 0 <= i < |s| && s[i].id == Some(id)
  {
    if s != [] {
      var init, last := s[..|s| - 1], s[|s| - 1];
      LiveOfPuts(init);
      assert Puts(s) == Puts(init) + [Put(last)];
      LiveGrows(Puts(init), Put(last));
      forall i | 0 <= i < |s|
        ensures s[i].id.value in Live(Puts(s)) && Live(Puts(s))[s[i].id.value] == s[i]
      {
        if i < |s| - 1 {
          assert init[i] == s[i];
        }
      }
      forall id | id in Live(Puts(s)) ensures exists i :: 0 <= i < |s| && s[i].id == Some(id) {
        if id in Live(Puts(init)) {
          var i :| 0 <= i < |init| && init[i].id == Some(id);
          assert s[i].id == Some(id);
        } else {
          assert s[|s| - 1].id == Some(id);
        }
      }
    }
  }

  lemma PutsMeanTheirMap(s: seq<Event>, live: map<EventId, Event>)
    requires ListsAll(s, live) && Keyed(live)
    ensures Live(Puts(s)) == live
  {
    LiveOfPuts(s);
    forall id | id in live ensures id in Live(Puts(s)) && Live(Puts(s))[id] == live[id] {
      var i :| 0 <= i < |s| && s[i] == live[id];
      assert s[i].id.value == id;
    }
  }

  lemma SubmapIsSmaller<V>(a: map<EventId, V>, b: map<EventId, V>)
    requires a.Keys <= b.Keys
    ensures |a| <= |b| && (|a| == |b| <==> a.Keys == b.Keys)
  {
    assert b.Keys == a.Keys + (b.Keys - a.Keys);
    assert |b.Keys| == |a.Keys| + |b.Keys - a.Keys|;
    assert b.Keys - a.Keys == {} <==> a.Keys == b.Keys;
  }

  ghost predicate TidyLine(line: Line) {
    line == Blank || (line.Put? && line.event.id.Some?)
  }

  /** Every non-blank line is a put, and no id comes twice. */
  ghost predicate Tidy(text: seq<Line>) {
    && (forall i :: 0 <= i < |text| ==> TidyLine(text[i]))
    && (forall i, j :: 0 <= i < j < |text| && text[i].Put? && text[j].Put? ==> text[i].event.id != text[j].event.id)
  }

  ghost predicate NoneSent(text: seq<Line>, mark: Option<Mark>) {
    forall i :: 0 <= i < |text| && text[i].Put? ==> !Sent(text[i].event, mark)
  }

  /** Every put of the text is live as it was put, and nothing else is. */
  ghost predicate IsItsPuts(text: seq<Line>, live: map<EventId, Event>) {
    && (forall i :: 0 <= i < |text| && text[i].Put? ==>
          text[i].event.id.Some? && text[i].event.id.value in live && live[text[i].event.id.value] == text[i].event)
    && (forall id :: id in live ==> exists i :: 0 <= i < |text| && text[i].Put? && text[i].event.id == Some(id))
  }

  lemma ItsPutsGrow(init: seq<Line>, live: map<EventId, Event>, last: Line)
    requires Tidy(init + [last]) && IsItsPuts(init, live)
    ensures IsItsPuts(init + [last], Apply(live, last))
    ensures last.Put? ==> last.event.id.Some? && last.event.id.value !in live
  {
    var text := init + [last];
    assert TidyLine(text[|init|]);
    forall i | 0 <= i < |init|
      ensures text[i] == init[i] && (init[i].Put? && last.Put? ==> init[i].event.id != last.event.id)
    {
      assert text[|init|] == last;
    }
    forall id | id in Apply(live, last)
      ensures exists i :: 0 <= i < |text| && text[i].Put? && text[i].event.id == Some(id)
    {
      if id in live {
        var i :| 0 <= i < |init| && init[i].Put? && init[i].event.id == Some(id);
        assert text[i].Put?;
      } else {
        assert text[|init|].event.id == Some(id);
      }
    }
  }

  lemma TidyShrinks(init: seq<Line>, last: Line)
    requires Tidy(init + [last])
    ensures Tidy(init) && TidyLine(last)
  {
    var text := init + [last];
    assert forall i :: 0 <= i < |init| ==> text[i] == init[i];
    assert text[|init|] == last;
  }

  lemma {:induction false} TidyIsAllLive(text: seq<Line>)
    requires Tidy(text)
    ensures |Live(text)| == Counted(text) && IsItsPuts(text, Live(text))
  {
    hide Tidy, IsItsPuts;
    if text != [] {
      var init, last := text[..|text| - 1], text[|text| - 1];
      assert text == init + [last];
      TidyShrinks(init, last);
      TidyIsAllLive(init);
      ItsPutsGrow(init, Live(init), last);
    } else {
      assert IsItsPuts([], map[]) by { NoPuts(); }
    }
  }

  lemma NoPuts()
    ensures IsItsPuts([], map[])
  {
  }

  /** A log can hold no more events than lines, and as many only when it is tidy. */
  lemma {:induction false} LiveAtMostCounted(text: seq<Line>)
    ensures |Live(text)| <= Counted(text)
    ensures |Live(text)| == Counted(text) ==> Tidy(text)
  {
    if text != [] {
      var init, last := text[..|text| - 1], text[|text| - 1];
      LiveAtMostCounted(init);
      match last {
        case Put(e) =>
          if |Live(text)| == Counted(text) {
            assert e.id.Some? && e.id.value !in Live(init);
            TidyIsAllLive(init);
            TidyGrows(init, last);
            assert text == init + [last];
          }
        case Del(ids) =>
          SubmapIsSmaller(Live(text), Live(init));
        case Blank =>
          if |Live(text)| == Counted(text) {
            TidyGrows(init, last);
            assert text == init + [last];
          }
        case _ =>
      }
    }
  }

  lemma TidyGrows(init: seq<Line>, last: Line)
    requires Tidy(init) && TidyLine(last)
    requires last.Put? ==> forall i :: 0 <= i < |init| && init[i].Put? ==> init[i].event.id != last.event.id
    ensures Tidy(init + [last])
  {
  }

  lemma UnsentSize(live: map<EventId, Event>, mark: Option<Mark>)
    ensures |Unsent(live, mark)| <= |live|
    ensures |Unsent(live, mark)| == |live| ==> Unsent(live, mark) == live
  {
    SubmapIsSmaller(Unsent(live, mark), live);
  }

  lemma TidyAndUnsentKeepsAll(text: seq<Line>, mark: Option<Mark>)
    requires Tidy(text) && NoneSent(text, mark)
    ensures Unsent(Live(text), mark) == Live(text)
  {
    var live := Live(text);
    TidyIsAllLive(text);
    forall id | id in live ensures id in Unsent(live, mark) {
      var i :| 0 <= i < |text| && text[i].Put? && text[i].event.id == Some(id);
    }
  }

  lemma AllUnsentMeansNoneSent(text: seq<Line>, mark: Option<Mark>)
    requires Tidy(text) && Unsent(Live(text), mark) == Live(text)
    ensures NoneSent(text, mark)
  {
    TidyIsAllLive(text);
    forall i | 0 <= i < |text| && text[i].Put? ensures !Sent(text[i].event, mark) {
      assert text[i].event.id.value in Unsent(Live(text), mark);
    }
  }

  lemma TidyIsText(text: seq<Line>)
    requires Tidy(text)
    ensures Undecodable !in text
  {
    forall i | 0 <= i < |text| ensures text[i] != Undecodable {
      assert TidyLine(text[i]);
    }
  }

  /** A load that can read skips the rewrite exactly when every non-blank line is already a distinct,
      unsent put. */
  lemma ShortcutIffTidy(log: Log, mark: Option<Mark>)
    ensures !Rewrites(log, mark) && Readable(log) <==> Tidy(Visible(log)) && NoneSent(Visible(log), mark)
    ensures !Rewrites(log, mark) && Readable(log) ==> Unsent(Live(Visible(log)), mark) == Live(Visible(log))
  {
    hide Tidy, NoneSent, Live, Counted, Unsent;
    var text := Visible(log);
    LiveAtMostCounted(text);
    UnsentSize(Live(text), mark);
    if !Rewrites(log, mark) && Readable(log) {
      AllUnsentMeansNoneSent(text, mark);
    }
    if Tidy(text) && NoneSent(text, mark) {
      TidyIsText(text);
      TidyAndUnsentKeepsAll(text, mark);
      TidyIsAllLive(text);
    }
  }

  /** What compaction leaves means exactly the events owed before it, no more and no less, and is always
      readable; a file no load can read is left as it is. */
  lemma CompactionKeepsMeaning(log: Log, mark: Option<Mark>)
    ensures Readable(Compacted(log, mark)) <==> Readable(log)
    ensures !Readable(log) ==> Compacted(log, mark) == log
    ensures Readable(log) ==> Live(Visible(Compacted(log, mark))) == Unsent(Live(Visible(log)), mark)
  {
    hide Live, Unsent, Ordered;
    var live := Live(Visible(log));
    if Rewrites(log, mark) {
      LiveIsKeyed(Visible(log));
      OrderedListsUnsent(live, mark);
      UnsentIsKeyed(live, mark);
      PutsMeanTheirMap(Ordered(live, mark), Unsent(live, mark));
    } else if Readable(log) {
      ShortcutIffTidy(log, mark);
    }
  }

  lemma UnsentIsKeyed(live: map<EventId, Event>, mark: Option<Mark>)
    requires Keyed(live)
    ensures Keyed(Unsent(live, mark)) && Unsent(Unsent(live, mark), mark) == Unsent(live, mark)
  {
  }

  /** A rewrite makes the file strictly shorter, and the next load finds nothing to rewrite. */
  lemma RewritingOnceIsEnough(log: Log, mark: Option<Mark>)
    ensures Rewrites(log, mark) ==> Counted(Visible(Compacted(log, mark))) < Counted(Visible(log))
    ensures !Rewrites(Compacted(log, mark), mark)
  {
    hide Live, Unsent, Counted, BySeq;
    if Rewrites(log, mark) {
      var live := Live(Visible(log));
      var owed := Unsent(live, mark);
      LiveIsKeyed(Visible(log));
      LiveAtMostCounted(Visible(log));
      UnsentSize(live, mark);
      OrderedListsUnsent(live, mark);
      LiveOfPuts(Ordered(live, mark));
      CompactionKeepsMeaning(log, mark);
      UnsentIsKeyed(live, mark);
    }
  }

  // --------------------------------------------------------------- appends

  /** How far one write got: all of it, all of it but not synced, none of it, a piece ending between two
      characters, a piece ending inside one, or all but the newline. */
  datatype Written = Durable | Unsynced | Nothing | Piece | HalfCharacter | AllButNewline

  /** A record written after an unfinished one shares its line. */
  function Appended(log: Log, line: Record, w: Written): Log {
    match w
    case Nothing => log
    case Piece => log.(tail := Glued(log.tail, Fragment))
    case HalfCharacter => log.(tail := Broken)
    case AllButNewline => log.(tail := Glued(log.tail, if log.tail == Clean then Whole(line) else Fragment))
    case _ => Log(log.lines + [LineAfter(log.tail, line)], Clean)
  }

  /** Nothing written after half a character makes the line text again. */
  function Glued(tail: Tail, more: Tail): Tail {
    if tail == Broken then Broken else more
  }

  /** What becomes of a record finished on a line that something else had begun. */
  function LineAfter(tail: Tail, line: Line): Line {
    match tail
    case Clean => line
    case Broken => Undecodable
    case _ => Unreadable
  }

  /** A load of this file hands the event over, or would but for the mark. */
  ghost predicate LoadFinds(log: Log, id: EventId) {
    Readable(log) && id in Live(Visible(log))
  }

  /** An append that returned is found by the next load exactly when the file could be read and ended in
      a newline before it. */
  lemma AppendIsKeptIffClean(log: Log, e: Event)
    requires e.id.Some? && e.id.value !in Live(Visible(log)) && e.id.value !in Live(log.lines)
    ensures LoadFinds(Appended(log, Put(e), Durable), e.id.value) <==> Readable(log) && log.tail == Clean
  {
    LiveGrows(log.lines, Put(e));
    LiveGrows(log.lines, Unreadable);
  }

  /** Only a whole write leaves the file ending in a newline. */
  lemma CleanAfterIff(log: Log, line: Record, w: Written)
    ensures Appended(log, line, w).tail == Clean <==>
              w == Durable || w == Unsynced || (w == Nothing && log.tail == Clean)
  {
  }

  /** A file is spoiled by a write that stops inside a character, and by nothing else; once spoiled, no
      write and no load makes it readable again. */
  lemma ReadableAfterIff(log: Log, line: Record, w: Written)
    ensures Readable(Appended(log, line, w)) <==> Readable(log) && w != HalfCharacter
  {
    var after := Appended(log, line, w);
    if log.tail == Broken || w == HalfCharacter {
      assert Visible(after)[|log.lines|] == Undecodable || (w == Nothing && after == log);
    }
    if log.tail.Whole? {
      assert log.tail.line in Visible(log);
    }
  }

  /** After a load the file ends in a newline, except when it could not be read, or when a record lost
      only its newline and there is nothing else to drop: then the file is left as it is, and whatever is
      appended next is glued on and lost. */
  lemma LoadCleansTailIff(log: Log, mark: Option<Mark>)
    ensures Compacted(log, mark).tail == Clean <==>
              log.tail == Clean || (Readable(log) && !(Tidy(Visible(log)) && NoneSent(Visible(log), mark)))
  {
    hide Tidy, NoneSent, Ordered, Live, Counted;
    ShortcutIffTidy(log, mark);
  }

  /** The failing family, in the smallest case: power is cut after the last brace of one record and
      before its newline; the rig boots, loads, and files the next event. Both are gone. */
  lemma NewlineLostThenBothLost(mark: Option<Mark>, first: Event, second: Event)
    requires first.id.Some? && second.id.Some? && !Sent(first, mark)
    ensures var torn := Appended(Log([], Clean), Put(first), AllButNewline);
            var booted := Compacted(torn, mark);
            && Live(Visible(booted)) == map[first.id.value := first]
            && Live(Visible(Appended(booted, Put(second), Durable))) == map[]
  {
    hide Live, Compacted, Rewrites, Sent;
    var torn := Log([], Whole(Put(first)));
    LoneRecord(first);
    OneTidyRecord(first, mark);
    ShortcutIffTidy(torn, mark);
    assert Compacted(torn, mark) == torn by { SkippedIsSame(torn, mark); }
    LiveGrows([], Unreadable);
    assert [] + [Unreadable] == [Unreadable];
    assert Live([]) == map[] by { NothingLive(); }
  }

  lemma OneTidyRecord(e: Event, mark: Option<Mark>)
    requires e.id.Some? && !Sent(e, mark)
    ensures Tidy([Put(e)]) && NoneSent([Put(e)], mark)
  {
  }

  lemma SkippedIsSame(log: Log, mark: Option<Mark>)
    requires !Rewrites(log, mark)
    ensures Compacted(log, mark) == log
  {
  }

  lemma NothingLive()
    ensures Live([]) == map[]
  {
  }

  lemma LoneRecord(e: Event)
    requires e.id.Some?
    ensures Live([Put(e)]) == map[e.id.value := e] && Visible(Log([], Whole(Put(e)))) == [Put(e)]
  {
    LiveGrows([], Put(e));
    assert [] + [Put(e)] == [Put(e)];
  }

  /** The uploader loads, and so compacts, from a process of its own. An append that falls between its
      reading and its rename is found afterwards exactly when it could read and had nothing to rewrite. */
  lemma AppendBetweenReadAndRename(read: Log, mark: Option<Mark>, e: Event)
    requires e.id.Some? && e.id.value !in Live(Visible(read)) && read.tail == Clean
    ensures var appended := Appended(read, Put(e), Durable);
            var renamed := if Rewrites(read, mark) then Compacted(read, mark) else appended;
            LoadFinds(renamed, e.id.value) <==> Readable(read) && !Rewrites(read, mark)
  {
    LiveGrows(read.lines, Put(e));
    CompactionKeepsMeaning(read, mark);
  }
}
