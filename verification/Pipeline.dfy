/** From the pedal to the ledger: the rig's page, its journal, its separate uploader and the service,
    as a state machine in which anything may stop, be resent or arrive late. */
module Pipeline {
  import opened JournalLog
  import opened Journals
  import opened Options

  // ------------------------------------------------------------ the ledger

  predicate Holds(ledger: seq<Event>, e: Event) {
    exists i :: 0 <= i < |ledger| && ledger[i].rig == e.rig && ledger[i].id == e.id
  }

  /** Appending ignores a row whose (rig, event) is already held, in the batch or before it. */
  function Ingest(ledger: seq<Event>, batch: seq<Event>): seq<Event>
    decreases |batch|
  {
    if batch == [] then ledger
    else Ingest(if Holds(ledger, batch[0]) then ledger else ledger + [batch[0]], batch[1..])
  }

  ghost predicate OncePerKey(ledger: seq<Event>) {
    forall i, j :: 0 <= i < j < |ledger| ==> !(ledger[i].rig == ledger[j].rig && ledger[i].id == ledger[j].id)
  }

  /** The ids of one rig's events. */
  function IdsOf(events: seq<Event>, rig: RigId): set<EventId> {
    set i | 0 <= i < |events| && events[i].rig == Some(rig) && events[i].id.Some? :: events[i].id.value
  }

  lemma IdsOfSum(a: seq<Event>, b: seq<Event>, rig: RigId)
    ensures IdsOf(a + b, rig) == IdsOf(a, rig) + IdsOf(b, rig)
  {
    forall id | id in IdsOf(a, rig) ensures id in IdsOf(a + b, rig) {
      var i :| 0 <= i < |a| && a[i].rig == Some(rig) && a[i].id == Some(id);
      assert (a + b)[i] == a[i];
    }
    forall id | id in IdsOf(b, rig) ensures id in IdsOf(a + b, rig) {
      var i :| 0 <= i < |b| && b[i].rig == Some(rig) && b[i].id == Some(id);
      assert (a + b)[|a| + i] == b[i];
    }
  }

  lemma HeldAlready(ledger: seq<Event>, e: Event, rig: RigId)
    requires Holds(ledger, e)
    ensures IdsOf([e], rig) <= IdsOf(ledger, rig)
  {
    var i :| 0 <= i < |ledger| && ledger[i].rig == e.rig && ledger[i].id == e.id;
  }

  lemma OneMoreKey(ledger: seq<Event>, e: Event)
    requires OncePerKey(ledger) && !Holds(ledger, e)
    ensures OncePerKey(ledger + [e])
  {
  }

  /** A batch lands once however often it is sent: every key held once, the earlier rows untouched, and
      nothing in the ledger that was not there or in the batch. */
  lemma {:induction false} IngestExactlyOnce(ledger: seq<Event>, batch: seq<Event>, rig: RigId)
    requires OncePerKey(ledger)
    ensures OncePerKey(Ingest(ledger, batch)) && ledger <= Ingest(ledger, batch)
    ensures IdsOf(Ingest(ledger, batch), rig) == IdsOf(ledger, rig) + IdsOf(batch, rig)
    ensures forall e :: e in Ingest(ledger, batch) ==> e in ledger || e in batch
    decreases |batch|
  {
    hide IdsOf, OncePerKey, Holds;
    if batch != [] {
      var e := batch[0];
      assert batch == [e] + batch[1..];
      IdsOfSum(ledger, [e], rig);
      IdsOfSum([e], batch[1..], rig);
      if Holds(ledger, e) {
        HeldAlready(ledger, e, rig);
        IngestExactlyOnce(ledger, batch[1..], rig);
      } else {
        OneMoreKey(ledger, e);
        IngestExactlyOnce(ledger + [e], batch[1..], rig);
      }
    } else {
      IdsOfSum([], [], rig);
      assert IdsOf(batch, rig) == {} by { NoIds(rig); }
    }
  }

  lemma NoIds(rig: RigId)
    ensures IdsOf([], rig) == {}
  {
  }

  /** Sending a batch again changes nothing. */
  lemma {:induction false} ResendingIsFree(ledger: seq<Event>, batch: seq<Event>)
    requires forall i :: 0 <= i < |batch| ==> Holds(ledger, batch[i])
    ensures Ingest(ledger, batch) == ledger
  {
    if batch != [] {
      assert forall i :: 0 <= i < |batch[1..]| ==> batch[1..][i] == batch[i + 1];
      ResendingIsFree(ledger, batch[1..]);
    }
  }

  /** What the service answers when asked how far it has this rig's events. */
  function Cursor(ledger: seq<Event>, rig: RigId): (m: int)
    ensures m >= -1
    ensures forall e :: e in ledger && e.rig == Some(rig) ==> SeqOrZero(e) <= m
  {
    if ledger == [] then -1
    else
      var m, last := Cursor(ledger[..|ledger| - 1], rig), ledger[|ledger| - 1];
      assert ledger == ledger[..|ledger| - 1] + [last];
      if last.rig == Some(rig) && SeqOrZero(last) > m then SeqOrZero(last) else m
  }

  // ------------------------------------------------------------- the state

  datatype Op = AppendOp(e: Event) | ForgetOp(ids: seq<EventId>)

  datatype Flight = Quiet | InFlight(batch: seq<Event>)

  datatype State = State(
    rig: RigId,
    // On the disk.
    log: Log, mark: Option<Mark>,
    // The page: what it has filed and not had acknowledged, what it has yet to write, its counter.
    running: bool, outbox: seq<Event>, chain: seq<Op>, next: int, page: Flight,
    // The uploader process.
    up: Flight,
    // The network and the service: every batch ever posted may arrive at any time, more than once.
    wire: set<seq<Event>>, took: set<seq<Event>>, denied: set<seq<Event>>, ledger: seq<Event>,
    // What has happened: events filed, appends that returned, ids in refused batches, appends that
    // returned although the file or the counter made them unsafe, and whether a write was ever glued
    // to an unfinished line or a boot ever counted on without reaching the service.
    minted: map<EventId, Event>, acked: set<EventId>, refused: set<EventId>, exposed: set<EventId>,
    glued: bool, blind: bool)

  datatype Step =
    | Emit(id: EventId, body: nat)
    | JournalOp(w: Written)
    | Crash
    | Boot(aligned: bool)
    | PagePost
    | PageReply
    | PageLost
    | UploaderRead
    | UploaderReply
    | UploaderLost
    | ServiceTakes(batch: seq<Event>)
    | ServiceRefuses(batch: seq<Event>)
    | OthersFile(batch: seq<Event>)

  function Init(rig: RigId): State {
    State(rig, Log([], Clean), None, false, [], [], 0, Quiet, Quiet, {}, {}, {}, [], map[], {}, {}, {}, false, false)
  }

  /** What the next load would hand over: nothing at all from a file that cannot be read. */
  function Owed(s: State): seq<Event> {
    if Readable(s.log) then OwedTo(Live(Visible(s.log)), s.mark, s.rig) else []
  }

  function IdList(batch: seq<Event>): (r: seq<EventId>)
    ensures forall id :: id in r ==> exists e :: e in batch && e.id == Some(id)
  {
    if batch == [] then []
    else
      assert batch == batch[..|batch| - 1] + [batch[|batch| - 1]];
      IdList(batch[..|batch| - 1]) + if batch[|batch| - 1].id.Some? then [batch[|batch| - 1].id.value] else []
  }

  /** The highest seq recovered, or -1. */
  function MaxSeq(events: seq<Event>): (m: int)
    ensures m >= -1 && forall e :: e in events ==> SeqOrZero(e) <= m
  {
    if events == [] then -1
    else
      var m, last := MaxSeq(events[..|events| - 1]), events[|events| - 1];
      assert events == events[..|events| - 1] + [last];
      if SeqOrZero(last) > m then SeqOrZero(last) else m
  }

  function Max(a: int, b: int): int {
    if a > b then a else b
  }

  predicate Sendable(batch: seq<Event>) {
    batch != [] && AllNumbered(batch)
  }

  /** Safe to hand to the journal: the file can be read and ends in a newline, and the seq is above everything the
      mark covers or is about to. */
  predicate Guard(s: State, e: Event) {
    && Readable(s.log) && s.log.tail == Clean && !Sent(e, s.mark)
    && (s.up.InFlight? && Sendable(s.up.batch) ==> SeqOrZero(e) > Highest(s.up.batch))
  }

  // ------------------------------------------------------------- the steps

  predicate Enabled(s: State, step: Step) {
    match step
    case Emit(id, _) => s.running && id !in s.minted
    case JournalOp(_) => s.running && s.chain != []
    case Crash => s.running
    case Boot(_) => !s.running
    case PagePost => s.running && s.page == Quiet && s.outbox != []
    case PageReply => s.page.InFlight? && (s.page.batch in s.took || s.page.batch in s.denied)
    case PageLost => s.page.InFlight?
    case UploaderRead => s.up == Quiet
    case UploaderReply => s.up.InFlight? && Sendable(s.up.batch) && (s.up.batch in s.took || s.up.batch in s.denied)
    case UploaderLost => s.up.InFlight?
    case ServiceTakes(batch) => batch in s.wire
    case ServiceRefuses(batch) => batch in s.wire
    case OthersFile(batch) => forall i :: 0 <= i < |batch| ==> batch[i].rig != Some(s.rig)
  }

  function DoEmit(s: State, id: EventId, body: nat): State {
    var e := Event(Some(id), Some(s.rig), Some(s.next), body);
    s.(outbox := s.outbox + [e], chain := s.chain + [AppendOp(e)], next := s.next + 1, minted := s.minted[id := e])
  }

  function LineOf(op: Op): Record {
    match op
    case AppendOp(e) => Put(e)
    case ForgetOp(ids) => Del(ids)
  }

  /** The next write of the page's queue reaches the disk, whole or not. A torn append is this step
      followed by a crash; without the crash it is a write that failed. Forgetting nothing writes nothing. */
  function DoJournalOp(s: State, w: Written): State
    requires s.chain != []
  {
    var op := s.chain[0];
    if op == ForgetOp([]) then s.(chain := s.chain[1..])
    else
      var id := if op.AppendOp? && op.e.id.Some? && w == Durable then {op.e.id.value} else {};
      s.(chain := s.chain[1..], log := Appended(s.log, LineOf(op), w),
         acked := s.acked + id,
         exposed := if op.AppendOp? && !Guard(s, op.e) then s.exposed + id else s.exposed,
         glued := s.glued || (s.log.tail != Clean && w != Nothing))
  }

  /** Recover what is owed, or nothing if the load fails; raise the counter past it, then ask the service
      how far it has got. */
  function DoBoot(s: State, aligned: bool): State {
    var owed := Owed(s);
    var above := Max(0, MaxSeq(owed) + 1);
    s.(running := true, log := Compacted(s.log, s.mark), outbox := owed, chain := [], page := Quiet,
       next := if aligned then Max(above, Cursor(s.ledger, s.rig) + 1) else above,
       blind := s.blind || !aligned)
  }

  function DoUploaderRead(s: State): State {
    var loaded := s.(log := Compacted(s.log, s.mark));
    var batch := FirstBatch(Owed(s));
    if !Sendable(batch) then loaded
    else loaded.(up := InFlight(batch), wire := s.wire + {batch})
  }

  function Do(s: State, step: Step): State
    requires Enabled(s, step)
  {
    match step
    case Emit(id, body) => DoEmit(s, id, body)
    case JournalOp(w) => DoJournalOp(s, w)
    case Crash => s.(running := false, outbox := [], chain := [], page := Quiet)
    case Boot(aligned) => DoBoot(s, aligned)
    case PagePost => s.(page := InFlight(FirstBatch(s.outbox)), wire := s.wire + {FirstBatch(s.outbox)})
    case PageReply => s.(page := Quiet, chain := s.chain + [ForgetOp(IdList(s.page.batch))],
                         outbox := if |s.page.batch| <= |s.outbox| then s.outbox[|s.page.batch|..] else [])
    case PageLost => s.(page := Quiet)
    case UploaderRead => DoUploaderRead(s)
    case UploaderReply => s.(up := Quiet, mark := Marked(s.mark, s.rig, Highest(s.up.batch)))
    case UploaderLost => s.(up := Quiet)
    case ServiceTakes(batch) => s.(took := s.took + {batch}, ledger := Ingest(s.ledger, batch))
    case ServiceRefuses(batch) => s.(denied := s.denied + {batch}, refused := s.refused + IdsOf(batch, s.rig))
    case OthersFile(batch) => s.(ledger := Ingest(s.ledger, batch))
  }

  ghost predicate Reaches(s: State, steps: seq<Step>, t: State)
    decreases |steps|
  {
    if steps == [] then s == t
    else Enabled(s, steps[0]) && Reaches(Do(s, steps[0]), steps[1..], t)
  }
}
