/** The ledger read into fact tables, one event at a time. */
module Projection {
  import opened Options

  // Dates, labels, turns, seats and people are opaque values here; times are seconds.
  datatype Key = Key(rig: nat, shiftDate: nat, shiftLabel: nat, turnFrom: Option<nat>, operatorId: Option<nat>)

  // What every fact row carries of the event it came from.
  datatype Stamp = Stamp(key: Key, operatorName: Option<nat>, personId: Option<nat>, at: real)

  datatype Outcome = Raised | Passed | PassedEarly | OtherOutcome(name: nat)

  // The data half of an envelope, by event; the episode id may be missing.
  datatype Said =
    | EpisodeSaved(episodeId: Option<nat>, durationSecs: real, score: Option<int>)
    | EpisodeDiscarded(episodeId: Option<nat>, durationSecs: real)
    | ShiftCheck(outcome: Option<Outcome>, subsystem: Option<nat>, secondsCharged: real)
    | Fault(name: nat, outcome: Option<Outcome>, subsystem: Option<nat>, secondsCharged: real)
    | RigDown(issue: nat, issuePath: Option<nat>, needsManager: bool, chargedTo: nat)
    | RigUp(measured: Option<real>)
    | StintEnded(faultSecs: real, downSecs: real)
    | SessionEnded(endedBy: Option<nat>)
    | Unread(name: nat)

  datatype Ev = Ev(stamp: Stamp, said: Said)

  datatype Ended = Handover | ByOperator | ByName(name: nat)

  datatype Session = Session(began: Stamp, endedAt: Option<real>, endedBy: Option<Ended>)

  datatype Episode = Episode(id: nat, stamp: Stamp, durationSecs: real, saved: bool, score: Option<int>)

  datatype Check = Check(stamp: Stamp, fault: Option<nat>, outcome: Option<Outcome>, subsystem: Option<nat>,
                         secondsCharged: real)

  datatype UpBy = SaidFixed | Resumed

  datatype Up = Up(at: real, downSecs: real, endedBy: UpBy)

  datatype Outage = Outage(stamp: Stamp, issue: nat, issuePath: Option<nat>, needsManager: bool, chargedTo: nat,
                           up: Option<Up>)

  datatype Block = Block(stamp: Stamp, episodes: nat, recordedSecs: real, assignedSecs: real, faultSecs: real,
                         downSecs: real)

  datatype Facts = Facts(sessions: seq<Session>, episodes: seq<Episode>, checks: seq<Check>, outages: seq<Outage>,
                         blocks: seq<Block>)

  const NOTHING := Facts([], [], [], [], [])

  // -------------------------------------------------------------- sessions

  /** The session of a key, or -1. */
  function SessionOf(sessions: seq<Session>, key: Key): (i: int)
    ensures -1 <= i < |sessions|
    ensures i != -1 ==> sessions[i].began.key == key
    ensures i == -1 ==> forall k :: 0 <= k < |sessions| ==> sessions[k].began.key != key
  {
    if sessions == [] then -1
    else
      var i := SessionOf(sessions[..|sessions| - 1], key);
      if i != -1 then i else if sessions[|sessions| - 1].began.key == key then |sessions| - 1 else -1
  }

  /** Find or open the session an event belongs to. */
  function WithSession(sessions: seq<Session>, stamp: Stamp): (r: seq<Session>)
    ensures SessionOf(r, stamp.key) != -1
  {
    if SessionOf(sessions, stamp.key) != -1 then sessions
    else
      assert (sessions + [Session(stamp, None, None)])[..|sessions|] == sessions;
      sessions + [Session(stamp, None, None)]
  }

  /** The first ending stands; later ones change nothing. */
  function Closed(s: Session, at: real, endedBy: Ended): Session {
    if s.endedAt == None then s.(endedAt := Some(at), endedBy := Some(endedBy)) else s
  }

  function CloseSession(sessions: seq<Session>, key: Key, at: real, endedBy: Ended): seq<Session> {
    var i := SessionOf(sessions, key);
    if i == -1 then sessions else sessions[i := Closed(sessions[i], at, endedBy)]
  }

  // --------------------------------------------------------------- outages

  predicate OpenAt(o: Outage, rig: nat) {
    o.stamp.key.rig == rig && o.up == None
  }

  /** The rig's open outage: the one that went down last, should there be several. */
  function OpenOutage(outages: seq<Outage>, rig: nat): (i: int)
    ensures -1 <= i < |outages|
    ensures i != -1 ==> OpenAt(outages[i], rig)
    ensures i == -1 ==> forall k :: 0 <= k < |outages| ==> !OpenAt(outages[k], rig)
  {
    if outages == [] then -1
    else
      var i, last := OpenOutage(outages[..|outages| - 1], rig), |outages| - 1;
      if !OpenAt(outages[last], rig) then i
      else if i != -1 && outages[i].stamp.at > outages[last].stamp.at then i
      else last
  }

  /** What the rig measured is preferred over the difference of two clock readings. */
  function Fixed(o: Outage, at: real, downSecs: Option<real>, endedBy: UpBy): Outage {
    o.(up := Some(Up(at, if downSecs.Some? then downSecs.value else at - o.stamp.at, endedBy)))
  }

  function CloseOutage(outages: seq<Outage>, rig: nat, at: real, downSecs: Option<real>, endedBy: UpBy): seq<Outage> {
    var i := OpenOutage(outages, rig);
    if i == -1 then outages else outages[i := Fixed(outages[i], at, downSecs, endedBy)]
  }

  /** What ends an open outage besides the rig saying it is up. */
  predicate IsWorking(said: Said) {
    match said
    case EpisodeSaved(_, _, _) => true
    case EpisodeDiscarded(_, _) => true
    case ShiftCheck(outcome, _, _) => outcome == Some(Passed) || outcome == Some(PassedEarly)
    case _ => false
  }

  // ---------------------------------------------------------------- totals

  function SavedCount(episodes: seq<Episode>, key: Key): nat {
    if episodes == [] then 0
    else
      var last := episodes[|episodes| - 1];
      SavedCount(episodes[..|episodes| - 1], key) + if last.saved && last.stamp.key == key then 1 else 0
  }

  function SavedSecs(episodes: seq<Episode>, key: Key): real {
    if episodes == [] then 0.0
    else
      var last := episodes[|episodes| - 1];
      SavedSecs(episodes[..|episodes| - 1], key)
      + if last.saved && last.stamp.key == key then last.durationSecs else 0.0
  }

  function AtLeastZero(x: real): real {
    if x > 0.0 then x else 0.0
  }

  predicate EpisodeHeld(episodes: seq<Episode>, id: nat) {
    exists k :: 0 <= k < |episodes| && episodes[k].id == id
  }

  // ------------------------------------------------------------- one event

  /** The tables after the session is found or opened and working evidence has closed an outage. */
  function Opened(f: Facts, ev: Ev): Facts {
    f.(sessions := WithSession(f.sessions, ev.stamp),
       outages := if IsWorking(ev.said) then CloseOutage(f.outages, ev.stamp.key.rig, ev.stamp.at, None, Resumed)
                  else f.outages)
  }

  function AddEpisode(f: Facts, ev: Ev, id: Option<nat>, secs: real, saved: bool, score: Option<int>): Option<Facts> {
    if id == None || EpisodeHeld(f.episodes, id.value) then None
    else Some(f.(episodes := f.episodes + [Episode(id.value, ev.stamp, secs, saved, score)]))
  }

  function StintBlock(f: Facts, ev: Ev): Block
    requires ev.said.StintEnded? && SessionOf(f.sessions, ev.stamp.key) != -1
  {
    var key := ev.stamp.key;
    Block(ev.stamp, SavedCount(f.episodes, key), SavedSecs(f.episodes, key),
          AtLeastZero(ev.stamp.at - f.sessions[SessionOf(f.sessions, key)].began.at),
          ev.said.faultSecs, ev.said.downSecs)
  }

  /** What an event adds, once its session is open. */
  function Applied(f: Facts, ev: Ev): Option<Facts>
    requires SessionOf(f.sessions, ev.stamp.key) != -1
  {
    var key, at := ev.stamp.key, ev.stamp.at;
    match ev.said
    case EpisodeSaved(id, secs, score) => AddEpisode(f, ev, id, secs, true, score)
    case EpisodeDiscarded(id, secs) => AddEpisode(f, ev, id, secs, false, None)
    case ShiftCheck(outcome, subsystem, secs) =>
      Some(f.(checks := f.checks + [Check(ev.stamp, None, outcome, subsystem, secs)]))
    case Fault(name, outcome, subsystem, secs) =>
      Some(f.(checks := f.checks + [Check(ev.stamp, Some(name), outcome, subsystem, secs)]))
    case RigDown(issue, path, needsManager, chargedTo) =>
      if OpenOutage(f.outages, key.rig) != -1 then Some(f)
      else Some(f.(outages := f.outages + [Outage(ev.stamp, issue, path, needsManager, chargedTo, None)]))
    case RigUp(measured) => Some(f.(outages := CloseOutage(f.outages, key.rig, at, measured, SaidFixed)))
    case StintEnded(_, _) =>
      Some(f.(blocks := f.blocks + [StintBlock(f, ev)], sessions := CloseSession(f.sessions, key, at, Handover)))
    case SessionEnded(said) =>
      Some(f.(sessions := CloseSession(f.sessions, key, at, if said.Some? then ByName(said.value) else ByOperator)))
    case Unread(_) => Some(f)
  }

  /** Apply one ledger row. An episode with no id, or an id already held, raises. */
  function ProjectOne(before: Facts, ev: Ev): Option<Facts> {
    Applied(Opened(before, ev), ev)
  }

  /** Apply a stretch of the ledger in order. */
  function ProjectAll(before: Facts, events: seq<Ev>): Option<Facts> {
    if events == [] then Some(before)
    else
      var f := ProjectAll(before, events[..|events| - 1]);
      if f == None then None else ProjectOne(f.value, events[|events| - 1])
  }

  lemma {:induction false} ProjectSplit(before: Facts, a: seq<Ev>, b: seq<Ev>)
    ensures ProjectAll(before, a + b) ==
              if ProjectAll(before, a).Some? then ProjectAll(ProjectAll(before, a).value, b) else None
    decreases |b|
  {
    if b == [] {
      assert a + b == a;
    } else {
      ProjectSplit(before, a, b[..|b| - 1]);
      assert (a + b)[..|a + b| - 1] == a + b[..|b| - 1];
    }
  }

  lemma ProjectNext(ledger: seq<Ev>, n: nat, f: Facts)
    requires n < |ledger| && ProjectAll(NOTHING, ledger[..n]) == Some(f)
    ensures ProjectAll(NOTHING, ledger[..n + 1]) == ProjectOne(f, ledger[n])
  {
    hide ProjectOne;
    assert ledger[..n + 1][..n] == ledger[..n];
  }

  /** Row k is one the projection cannot get past. */
  ghost predicate Raises(ledger: seq<Ev>, k: int) {
    0 <= k < |ledger| && ProjectAll(NOTHING, ledger[..k + 1]) == None
  }

  // ------------------------------------------------------------ the worker

  class Worker {
    // The ledger in the order of its ids, and which rows have been consumed.
    var ledger: seq<Ev>
    var stamped: seq<bool>
    var facts: Facts
    // Every row before this one has been consumed, and none after it.
    ghost var done: nat

    ghost predicate Valid()
      reads this
    {
      && |stamped| == |ledger| && done <= |ledger|
      && (forall i :: 0 <= i < |ledger| ==> (stamped[i] <==> i < done))
      && ProjectAll(NOTHING, ledger[..done]) == Some(facts)
    }

    constructor ()
      ensures Valid() && ledger == [] && facts == NOTHING
    {
      ledger, stamped, facts, done := [], [], NOTHING, 0;
    }

    /** New rows arrive behind the ones already held. */
    method Append(events: seq<Ev>)
      requires Valid()
      modifies this
      ensures Valid() && ledger == old(ledger) + events && done == old(done) && facts == old(facts)
    {
      assert (ledger + events)[..done] == ledger[..done];
      ledger := ledger + events;
      stamped := stamped + seq(|events|, _ => false);
    }

    /** The outstanding tail, oldest first, up to the limit. */
    method Claim(limit: nat) returns (claim: seq<nat>)
      requires Valid()
      ensures |claim| == if limit <= |ledger| - done then limit else |ledger| - done
      ensures forall k :: 0 <= k < |claim| ==> claim[k] == done + k
    {
      claim := [];
      for i := 0 to |ledger|
        invariant |claim| == if i <= done then 0 else if i - done <= limit then i - done else limit
        invariant forall k :: 0 <= k < |claim| ==> claim[k] == done + k
      {
        if !stamped[i] && |claim| < limit {
          claim := claim + [i];
        }
      }
    }

    /** Claim and project a batch. If any row raises nothing of the batch is kept. */
    method ProjectBatch(limit: nat) returns (count: Option<nat>)
      requires Valid()
      modifies this
      ensures Valid() && ledger == old(ledger)
      ensures count.Some? ==> done == old(done) + count.value
      ensures count.Some? ==> count.value == if limit <= |ledger| - old(done) then limit else |ledger| - old(done)
      ensures count == None ==> facts == old(facts) && done == old(done)
      ensures count == None ==> exists k :: Raises(ledger, k) && old(done) <= k < old(done) + limit
    {
      hide ProjectAll, ProjectOne;
      var claim := Claim(limit);
      var working, marks := facts, stamped;
      for k := 0 to |claim|
        invariant done == old(done) && ledger == old(ledger) && stamped == old(stamped) && facts == old(facts)
        invariant |claim| <= |ledger| - done && |claim| <= limit
        invariant ProjectAll(NOTHING, ledger[..done + k]) == Some(working)
        invariant |marks| == |ledger| && forall i :: 0 <= i < |ledger| ==> (marks[i] <==> i < done + k)
      {
        var i := claim[k];
        ProjectNext(ledger, i, working);
        var next := ProjectOne(working, ledger[i]);
        if next == None {
          assert Raises(ledger, i);
          return None;
        }
        working, marks := next.value, marks[i := true];
      }
      facts, stamped, done := working, marks, done + |claim|;
      count := Some(|claim|);
    }

    /** Back to the start: no rows, and nothing of the ledger applied. */
    method Reset()
      requires Valid()
      modifies this
      ensures Valid() && ledger == old(ledger) && done == 0 && facts == NOTHING
    {
      facts, done := NOTHING, 0;
      stamped := seq(|ledger|, _ => false);
      assert ledger[..0] == [];
    }
  }
}
