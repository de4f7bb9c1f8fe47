/** What each table says about the ledger, read off the ledger independently. */
module ProjectionReadings {
  import opened Options
  import opened Projection
  import opened ProjectionReplay

  // ------------------------------------------------ reading the events alone

  function SavedIn(events: seq<Ev>, key: Key): nat {
    if events == [] then 0
    else
      var last := events[|events| - 1];
      SavedIn(events[..|events| - 1], key) + if last.said.EpisodeSaved? && last.stamp.key == key then 1 else 0
  }

  function SecsIn(events: seq<Ev>, key: Key): real {
    if events == [] then 0.0
    else
      var last := events[|events| - 1];
      SecsIn(events[..|events| - 1], key)
      + if last.said.EpisodeSaved? && last.stamp.key == key then last.said.durationSecs else 0.0
  }

  /** The first event of a key. */
  function First(events: seq<Ev>, key: Key): (s: Option<Stamp>)
    ensures s.Some? ==> s.value.key == key
  {
    if events == [] then None
    else
      var first := First(events[..|events| - 1], key);
      if first.Some? then first
      else if events[|events| - 1].stamp.key == key then Some(events[|events| - 1].stamp)
      else None
  }

  function EndOf(ev: Ev): Option<Ended> {
    match ev.said
    case StintEnded(_, _) => Some(Handover)
    case SessionEnded(said) => Some(if said.Some? then ByName(said.value) else ByOperator)
    case _ => None
  }

  /** The first event that ends a key's session: when, and how. */
  function FirstEnd(events: seq<Ev>, key: Key): Option<(real, Ended)> {
    if events == [] then None
    else
      var first, last := FirstEnd(events[..|events| - 1], key), events[|events| - 1];
      if first.Some? then first
      else if last.stamp.key == key && EndOf(last).Some? then Some((last.stamp.at, EndOf(last).value))
      else None
  }

  /** The block an ended stint should be, given everything before and at its end. */
  function ReadBlock(before: seq<Ev>, ev: Ev): Block
    requires ev.said.StintEnded?
  {
    var key := ev.stamp.key;
    var began := First(before + [ev], key);
    Block(ev.stamp, SavedIn(before, key), SecsIn(before, key),
          if began.Some? && began.value.at < ev.stamp.at then ev.stamp.at - began.value.at else 0.0,
          ev.said.faultSecs, ev.said.downSecs)
  }

  function ReadBlocks(events: seq<Ev>): seq<Block> {
    if events == [] then []
    else
      var init, last := events[..|events| - 1], events[|events| - 1];
      if last.said.StintEnded? then ReadBlocks(init) + [ReadBlock(init, last)] else ReadBlocks(init)
  }

  // -------------------------------------------------------------- takes

  /** The rows the takes should be, in the order they were filed. */
  ghost function TakesIn(events: seq<Ev>): seq<Episode>
    requires NamedOnce(events)
  {
    if events == [] then []
    else
      var init, last := events[..|events| - 1], events[|events| - 1];
      if IsTake(last) then TakesIn(init) + [TakeRow(last)] else TakesIn(init)
  }

  /** The episodes table is the takes, saved and discarded, each once and as it was filed. */
  lemma {:induction false} EpisodesAreTheTakes(events: seq<Ev>)
    requires NamedOnce(events)
    ensures ProjectAll(NOTHING, events).Some? && ProjectAll(NOTHING, events).value.episodes == TakesIn(events)
  {
    hide ProjectOne;
    ProjectsIffNamedOnce(events);
    if events != [] {
      var init, last := events[..|events| - 1], events[|events| - 1];
      ProjectsIffNamedOnce(init);
      EpisodesAreTheTakes(init);
      EpisodesAfter(ProjectAll(NOTHING, init).value, last);
    }
  }

  lemma SavedGrows(s: seq<Episode>, e: Episode, key: Key)
    ensures SavedCount(s + [e], key) == SavedCount(s, key) + if e.saved && e.stamp.key == key then 1 else 0
    ensures SavedSecs(s + [e], key) == SavedSecs(s, key) + if e.saved && e.stamp.key == key then e.durationSecs else 0.0
  {
    assert (s + [e])[..|s|] == s;
  }

  lemma {:induction false} EpisodesReadTheTakes(events: seq<Ev>, key: Key)
    requires ProjectAll(NOTHING, events).Some?
    ensures SavedCount(ProjectAll(NOTHING, events).value.episodes, key) == SavedIn(events, key)
    ensures SavedSecs(ProjectAll(NOTHING, events).value.episodes, key) == SecsIn(events, key)
  {
    hide ProjectOne;
    if events != [] {
      var init, last := events[..|events| - 1], events[|events| - 1];
      EpisodesReadTheTakes(init, key);
      var f := ProjectAll(NOTHING, init).value;
      EpisodesAfter(f, last);
      if IsTake(last) {
        SavedGrows(f.episodes, TakeRow(last), key);
      }
    }
  }

  /** The rows the checks and fault reports should be, in the order they were filed. */
  function ReportsIn(events: seq<Ev>): seq<Check> {
    if events == [] then []
    else
      var before, last := ReportsIn(events[..|events| - 1]), events[|events| - 1];
      match last.said
      case ShiftCheck(outcome, subsystem, secs) => before + [Check(last.stamp, None, outcome, subsystem, secs)]
      case Fault(name, outcome, subsystem, secs) => before + [Check(last.stamp, Some(name), outcome, subsystem, secs)]
      case _ => before
  }

  lemma ChecksAre(f: Facts, ev: Ev)
    requires ProjectOne(f, ev).Some?
    ensures ProjectOne(f, ev).value.checks == f.checks + ReportsIn([ev])
  {
    hide EpisodeHeld, CloseOutage, CloseSession, StintBlock, WithSession, OpenOutage, SessionOf;
    assert [ev][..0] == [];
    assert f.checks + [] == f.checks;
  }

  lemma {:induction false} ReportsSplit(a: seq<Ev>, ev: Ev)
    ensures ReportsIn(a + [ev]) == ReportsIn(a) + ReportsIn([ev])
  {
    assert (a + [ev])[..|a|] == a && [ev][..0] == [];
    assert ReportsIn(a) + [] == ReportsIn(a);
  }

  /** The checks table is the checks and the fault reports, each once and as it was filed. */
  lemma {:induction false} ChecksAreTheReports(events: seq<Ev>)
    requires ProjectAll(NOTHING, events).Some?
    ensures ProjectAll(NOTHING, events).value.checks == ReportsIn(events)
  {
    hide ProjectOne, ReportsIn;
    if events == [] {
      assert ReportsIn([]) == [] by { NoReports(); }
    } else {
      var init, last := events[..|events| - 1], events[|events| - 1];
      assert events == init + [last];
      ChecksAreTheReports(init);
      ChecksAre(ProjectAll(NOTHING, init).value, last);
      ReportsSplit(init, last);
    }
  }

  lemma NoReports()
    ensures ReportsIn([]) == []
  {
  }

  // ------------------------------------------------------------- sessions

  /** One session a key. */
  ghost predicate OnePerKey(s: seq<Session>) {
    forall i, j :: 0 <= i < j < |s| ==> s[i].began.key != s[j].began.key
  }

  /** The table has a session for a key exactly when the ledger has an event under it: begun by the
      first such event, ended by the first that ends it. */
  ghost predicate ReadsSession(s: seq<Session>, events: seq<Ev>, key: Key) {
    var i := SessionOf(s, key);
    && (i == -1 <==> First(events, key) == None)
    && (i == -1 ==> FirstEnd(events, key) == None)
    && (i != -1 ==> Some(s[i].began) == First(events, key)
                    && (s[i].endedAt == None <==> s[i].endedBy == None)
                    && FirstEnd(events, key) == EndingOf(s[i]))
  }

  function EndingOf(s: Session): Option<(real, Ended)> {
    if s.endedAt.Some? && s.endedBy.Some? then Some((s.endedAt.value, s.endedBy.value)) else None
  }

  lemma ReadingGrows(events: seq<Ev>, ev: Ev, key: Key)
    ensures First(events + [ev], key) ==
              if First(events, key).Some? then First(events, key)
              else if ev.stamp.key == key then Some(ev.stamp) else None
    ensures FirstEnd(events + [ev], key) ==
              if FirstEnd(events, key).Some? then FirstEnd(events, key)
              else if ev.stamp.key == key && EndOf(ev).Some? then Some((ev.stamp.at, EndOf(ev).value)) else None
  {
    assert (events + [ev])[..|events|] == events;
  }

  /** The sessions after one event, whatever the event. */
  function SessionsAfter(s: seq<Session>, ev: Ev): seq<Session> {
    var began := WithSession(s, ev.stamp);
    if EndOf(ev).Some? then CloseSession(began, ev.stamp.key, ev.stamp.at, EndOf(ev).value) else began
  }

  lemma SessionsAre(f: Facts, ev: Ev)
    requires ProjectOne(f, ev).Some?
    ensures ProjectOne(f, ev).value.sessions == SessionsAfter(f.sessions, ev)
  {
    hide EpisodeHeld, CloseOutage, CloseSession, StintBlock, WithSession, OpenOutage, SessionOf;
  }

  lemma BeganIs(s: seq<Session>, stamp: Stamp, key: Key)
    requires OnePerKey(s)
    ensures OnePerKey(WithSession(s, stamp))
    ensures var t := WithSession(s, stamp);
            if SessionOf(s, key) != -1 then SessionOf(t, key) != -1 && t[SessionOf(t, key)] == s[SessionOf(s, key)]
            else if stamp.key == key then SessionOf(t, key) != -1 && t[SessionOf(t, key)] == Session(stamp, None, None)
            else SessionOf(t, key) == -1
  {
    SessionOfGrows(s, Session(stamp, None, None), key);
  }

  lemma SessionOfUpdated(s: seq<Session>, i: nat, x: Session, key: Key)
    requires i < |s| && OnePerKey(s) && x.began == s[i].began
    ensures OnePerKey(s[i := x])
    ensures SessionOf(s[i := x], key) == SessionOf(s, key)
  {
    var t := s[i := x];
    var a, b := SessionOf(s, key), SessionOf(t, key);
    if a != -1 {
      assert t[a].began.key == key;
    }
    if b != -1 {
      assert s[b].began.key == key;
    }
  }

  lemma ClosedIs(s: seq<Session>, k: Key, at: real, endedBy: Ended, key: Key)
    requires OnePerKey(s)
    ensures var t := CloseSession(s, k, at, endedBy);
            && OnePerKey(t) && SessionOf(t, key) == SessionOf(s, key)
            && (SessionOf(s, key) != -1 ==>
                  t[SessionOf(t, key)]
                    == if k == key then Closed(s[SessionOf(s, key)], at, endedBy) else s[SessionOf(s, key)])
  {
    var i := SessionOf(s, k);
    if i != -1 {
      SessionOfUpdated(s, i, Closed(s[i], at, endedBy), key);
    }
  }

  lemma SessionStep(s: seq<Session>, events: seq<Ev>, ev: Ev, key: Key)
    requires OnePerKey(s) && ReadsSession(s, events, key)
    ensures OnePerKey(SessionsAfter(s, ev)) && ReadsSession(SessionsAfter(s, ev), events + [ev], key)
  {
    hide WithSession, CloseSession, First, FirstEnd, OnePerKey;
    ReadingGrows(events, ev, key);
    BeganIs(s, ev.stamp, key);
    if EndOf(ev).Some? {
      ClosedIs(WithSession(s, ev.stamp), ev.stamp.key, ev.stamp.at, EndOf(ev).value, key);
    }
  }

  lemma {:induction false} SessionsReadTheLedger(events: seq<Ev>, key: Key)
    requires ProjectAll(NOTHING, events).Some?
    ensures OnePerKey(ProjectAll(NOTHING, events).value.sessions)
    ensures ReadsSession(ProjectAll(NOTHING, events).value.sessions, events, key)
  {
    hide ProjectOne, SessionsAfter;
    if events != [] {
      var init, last := events[..|events| - 1], events[|events| - 1];
      assert events == init + [last];
      SessionsReadTheLedger(init, key);
      var f := ProjectAll(NOTHING, init).value;
      SessionsAre(f, last);
      SessionStep(f.sessions, init, last, key);
    }
  }

  // --------------------------------------------------------------- blocks

  lemma BlocksAre(f: Facts, ev: Ev)
    requires ProjectOne(f, ev).Some?
    ensures ProjectOne(f, ev).value.blocks ==
              if ev.said.StintEnded? then f.blocks + [StintBlock(Opened(f, ev), ev)] else f.blocks
  {
    hide EpisodeHeld, CloseOutage, CloseSession, WithSession, OpenOutage, SessionOf, SavedCount, SavedSecs;
  }

  lemma BlockIsRead(events: seq<Ev>, ev: Ev)
    requires ProjectAll(NOTHING, events).Some? && ev.said.StintEnded?
    ensures StintBlock(Opened(ProjectAll(NOTHING, events).value, ev), ev) == ReadBlock(events, ev)
  {
    hide CloseOutage, WithSession, SavedCount, SavedSecs, SavedIn, SecsIn, First, FirstEnd, ProjectAll, SessionOf,
      OnePerKey;
    var f, key := ProjectAll(NOTHING, events).value, ev.stamp.key;
    EpisodesReadTheTakes(events, key);
    SessionsReadTheLedger(events, key);
    BeganIs(f.sessions, ev.stamp, key);
    ReadingGrows(events, ev, key);
  }

  /** Every productivity block is what the ledger says and nothing the rig counted: the saved takes
      filed before it under its key, their seconds, and the time since the first event under its key. */
  lemma {:induction false} BlocksReadTheLedger(events: seq<Ev>)
    requires ProjectAll(NOTHING, events).Some?
    ensures ProjectAll(NOTHING, events).value.blocks == ReadBlocks(events)
  {
    hide ProjectOne, StintBlock, ReadBlock;
    if events != [] {
      var init, last := events[..|events| - 1], events[|events| - 1];
      BlocksReadTheLedger(init);
      var f := ProjectAll(NOTHING, init).value;
      BlocksAre(f, last);
      if last.said.StintEnded? {
        BlockIsRead(init, last);
      }
    }
  }

  // -------------------------------------------------------------- outages

  /** Nobody can do these at a broken rig: save a take, discard one, or pass its check. */
  predicate ProvesItWorks(said: Said) {
    match said
    case EpisodeSaved(_, _, _) => true
    case EpisodeDiscarded(_, _) => true
    case ShiftCheck(outcome, _, _) => outcome == Some(Passed) || outcome == Some(PassedEarly)
    case Fault(_, _, _, _) => false
    case RigDown(_, _, _, _) => false
    case RigUp(_) => false
    case StintEnded(_, _) => false
    case SessionEnded(_) => false
    case Unread(_) => false
  }

  /** Whether the rig's last word was that it is down: down, and since then neither up nor at work. */
  function SaysDown(events: seq<Ev>, rig: nat): bool {
    if events == [] then false
    else
      var last := events[|events| - 1];
      if EvRig(last) != rig then SaysDown(events[..|events| - 1], rig)
      else if last.said.RigDown? then true
      else if last.said.RigUp? || ProvesItWorks(last.said) then false
      else SaysDown(events[..|events| - 1], rig)
  }

  /** At most one outage of a rig is open, and one is exactly when the rig's last word was down. */
  ghost predicate ReadsOutages(o: seq<Outage>, events: seq<Ev>, rig: nat) {
    && (forall i, j :: 0 <= i < j < |o| && OpenAt(o[i], rig) ==> !OpenAt(o[j], rig))
    && (OpenOutage(o, rig) != -1 <==> SaysDown(events, rig))
  }

  function OutagesAfter(o: seq<Outage>, ev: Ev): seq<Outage> {
    var rig, at := EvRig(ev), ev.stamp.at;
    match ev.said
    case RigDown(issue, path, needsManager, chargedTo) =>
      if OpenOutage(o, rig) != -1 then o else o + [Outage(ev.stamp, issue, path, needsManager, chargedTo, None)]
    case RigUp(measured) => CloseOutage(o, rig, at, measured, SaidFixed)
    case _ => if IsWorking(ev.said) then CloseOutage(o, rig, at, None, Resumed) else o
  }

  lemma OutagesAre(f: Facts, ev: Ev)
    requires ProjectOne(f, ev).Some?
    ensures ProjectOne(f, ev).value.outages == OutagesAfter(f.outages, ev)
  {
    hide EpisodeHeld, CloseOutage, CloseSession, StintBlock, WithSession, OpenOutage, SessionOf;
  }

  lemma ClosingLeavesNone(o: seq<Outage>, rig: nat, at: real, downSecs: Option<real>, endedBy: UpBy, r: nat)
    requires forall i, j :: 0 <= i < j < |o| && OpenAt(o[i], r) ==> !OpenAt(o[j], r)
    ensures var t := CloseOutage(o, rig, at, downSecs, endedBy);
            && (forall i, j :: 0 <= i < j < |t| && OpenAt(t[i], r) ==> !OpenAt(t[j], r))
            && (rig == r ==> OpenOutage(t, r) == -1)
            && (rig != r ==> (OpenOutage(t, r) != -1 <==> OpenOutage(o, r) != -1))
  {
    var t, i := CloseOutage(o, rig, at, downSecs, endedBy), OpenOutage(o, rig);
    if i != -1 {
      assert !OpenAt(t[i], r);
      var a, b := OpenOutage(t, r), OpenOutage(o, r);
      if a != -1 {
        assert OpenAt(o[a], r);
      }
      if b != -1 && b != i {
        assert OpenAt(t[b], r);
      }
    }
  }

  lemma SaysDownGrows(events: seq<Ev>, ev: Ev, rig: nat)
    ensures SaysDown(events + [ev], rig) ==
              if EvRig(ev) == rig && (ev.said.RigDown? || ev.said.RigUp? || ProvesItWorks(ev.said))
              then ev.said.RigDown?
              else SaysDown(events, rig)
  {
    assert (events + [ev])[..|events|] == events;
  }

  lemma DownStep(o: seq<Outage>, events: seq<Ev>, ev: Ev, rig: nat)
    requires ReadsOutages(o, events, rig) && ev.said.RigDown?
    ensures ReadsOutages(OutagesAfter(o, ev), events + [ev], rig)
  {
    hide CloseOutage, OpenOutage, SaysDown;
    SaysDownGrows(events, ev, rig);
    var down := Outage(ev.stamp, ev.said.issue, ev.said.issuePath, ev.said.needsManager, ev.said.chargedTo, None);
    OpenOutageGrows(o, down, rig);
    if EvRig(ev) == rig && OpenOutage(o, rig) == -1 {
      NoneOpen(o, rig);
    }
  }

  lemma OutageStep(o: seq<Outage>, events: seq<Ev>, ev: Ev, rig: nat)
    requires ReadsOutages(o, events, rig)
    ensures ReadsOutages(OutagesAfter(o, ev), events + [ev], rig)
  {
    hide CloseOutage, OpenOutage, SaysDown;
    SaysDownGrows(events, ev, rig);
    match ev.said {
      case RigDown(_, _, _, _) => DownStep(o, events, ev, rig);
      case RigUp(measured) => ClosingLeavesNone(o, EvRig(ev), ev.stamp.at, measured, SaidFixed, rig);
      case _ => ClosingLeavesNone(o, EvRig(ev), ev.stamp.at, None, Resumed, rig);
    }
  }

  lemma NoneOpen(o: seq<Outage>, rig: nat)
    requires OpenOutage(o, rig) == -1
    ensures forall k :: 0 <= k < |o| ==> !OpenAt(o[k], rig)
  {
  }

  /** An event that is neither an outage's own nor proof of work leaves every outage as it was: a check raised
      or failed, a fault, the end of a stint or of a session, or one with no reading. */
  lemma OthersLeaveOutages(f: Facts, ev: Ev)
    requires ProjectOne(f, ev).Some?
    requires match ev.said
             case ShiftCheck(outcome, _, _) => outcome != Some(Passed) && outcome != Some(PassedEarly)
             case Fault(_, _, _, _) => true
             case StintEnded(_, _) => true
             case SessionEnded(_) => true
             case Unread(_) => true
             case _ => false
    ensures ProjectOne(f, ev).value.outages == f.outages
  {
    OutagesAre(f, ev);
  }

  lemma {:induction false} OutagesReadTheLedger(events: seq<Ev>, rig: nat)
    requires ProjectAll(NOTHING, events).Some?
    ensures ReadsOutages(ProjectAll(NOTHING, events).value.outages, events, rig)
  {
    hide ProjectOne, OutagesAfter;
    if events != [] {
      var init, last := events[..|events| - 1], events[|events| - 1];
      assert events == init + [last];
      OutagesReadTheLedger(init, rig);
      var f := ProjectAll(NOTHING, init).value;
      OutagesAre(f, last);
      OutageStep(f.outages, init, last, rig);
    }
  }

  /** One rig's outages read one event at a time, with nothing to search for: each begins with a report
      that it is down while it is up, and ends with the first word after it that it is up or at work. */
  function OutagesOf(events: seq<Ev>, rig: nat): seq<Outage> {
    if events == [] then []
    else
      var before, last := OutagesOf(events[..|events| - 1], rig), events[|events| - 1];
      if EvRig(last) == rig then NextOutages(before, last) else before
  }

  function NextOutages(o: seq<Outage>, ev: Ev): seq<Outage> {
    var down, at := o != [] && o[|o| - 1].up == None, ev.stamp.at;
    match ev.said
    case RigDown(issue, path, needsManager, chargedTo) =>
      if down then o else o + [Outage(ev.stamp, issue, path, needsManager, chargedTo, None)]
    case RigUp(measured) => if down then Ending(o, at, measured, SaidFixed) else o
    case _ => if down && ProvesItWorks(ev.said) then Ending(o, at, None, Resumed) else o
  }

  function Ending(o: seq<Outage>, at: real, downSecs: Option<real>, endedBy: UpBy): seq<Outage>
    requires o != []
  {
    var last := o[|o| - 1];
    var secs := match downSecs case Some(measured) => measured case None => at - last.stamp.at;
    o[..|o| - 1] + [Outage(last.stamp, last.issue, last.issuePath, last.needsManager, last.chargedTo,
                           Some(Up(at, secs, endedBy)))]
  }

  /** All of one rig, and only the last may be open. */
  ghost predicate OneAfterAnother(o: seq<Outage>, rig: nat) {
    && (forall i :: 0 <= i < |o| ==> OutageRig(o[i]) == rig)
    && (forall i :: 0 <= i < |o| - 1 ==> o[i].up.Some?)
  }

  lemma OpenIsTheLast(o: seq<Outage>, rig: nat)
    requires OneAfterAnother(o, rig)
    ensures OpenOutage(o, rig) == if o != [] && o[|o| - 1].up == None then |o| - 1 else -1
  {
    var i := OpenOutage(o, rig);
    if i != -1 {
      assert OpenAt(o[i], rig);
    } else if o != [] {
      assert !OpenAt(o[|o| - 1], rig);
    }
  }

  lemma ClosingIsEnding(o: seq<Outage>, rig: nat, at: real, downSecs: Option<real>, endedBy: UpBy)
    requires OneAfterAnother(o, rig)
    ensures CloseOutage(o, rig, at, downSecs, endedBy) ==
              if o != [] && o[|o| - 1].up == None then Ending(o, at, downSecs, endedBy) else o
  {
    OpenIsTheLast(o, rig);
  }

  lemma NextIsAfter(o: seq<Outage>, ev: Ev, rig: nat)
    requires OneAfterAnother(o, rig) && EvRig(ev) == rig
    ensures NextOutages(o, ev) == OutagesAfter(o, ev)
  {
    hide CloseOutage, OpenOutage, OneAfterAnother, Ending;
    OpenIsTheLast(o, rig);
    match ev.said {
      case RigUp(measured) => ClosingIsEnding(o, rig, ev.stamp.at, measured, SaidFixed);
      case RigDown(_, _, _, _) =>
      case _ => ClosingIsEnding(o, rig, ev.stamp.at, None, Resumed);
    }
  }

  lemma EndingKeeps(o: seq<Outage>, rig: nat, at: real, downSecs: Option<real>, endedBy: UpBy)
    requires OneAfterAnother(o, rig) && o != []
    ensures OneAfterAnother(Ending(o, at, downSecs, endedBy), rig)
  {
  }

  lemma OpeningKeeps(o: seq<Outage>, rig: nat, x: Outage)
    requires OneAfterAnother(o, rig) && OutageRig(x) == rig && (o != [] ==> o[|o| - 1].up.Some?)
    ensures OneAfterAnother(o + [x], rig)
  {
    assert forall i :: 0 <= i < |o| ==> (o + [x])[i] == o[i];
  }

  lemma NextIsOneAfterAnother(o: seq<Outage>, ev: Ev, rig: nat)
    requires OneAfterAnother(o, rig) && EvRig(ev) == rig
    ensures OneAfterAnother(NextOutages(o, ev), rig)
  {
    hide OneAfterAnother, Ending;
    if o == [] || o[|o| - 1].up.Some? {
      match ev.said {
        case RigDown(issue, path, needsManager, chargedTo) =>
          OpeningKeeps(o, rig, Outage(ev.stamp, issue, path, needsManager, chargedTo, None));
        case _ =>
      }
    } else {
      match ev.said {
        case RigUp(measured) => EndingKeeps(o, rig, ev.stamp.at, measured, SaidFixed);
        case _ => EndingKeeps(o, rig, ev.stamp.at, None, Resumed);
      }
    }
  }

  lemma OutagesOfGrows(events: seq<Ev>, ev: Ev, rig: nat)
    requires OneAfterAnother(OutagesOf(events, rig), rig)
    ensures OneAfterAnother(OutagesOf(events + [ev], rig), rig)
    ensures OutagesOf(events + [ev], rig) ==
              if EvRig(ev) == rig then OutagesAfter(OutagesOf(events, rig), ev) else OutagesOf(events, rig)
  {
    hide OneAfterAnother, NextOutages, OutagesAfter;
    assert (events + [ev])[..|events|] == events;
    if EvRig(ev) == rig {
      NextIsAfter(OutagesOf(events, rig), ev, rig);
      NextIsOneAfterAnother(OutagesOf(events, rig), ev, rig);
    }
  }

  lemma OutagesAfterOnly(o: seq<Outage>, ev: Ev, rig: nat)
    ensures Only(OutagesAfter(o, ev), OutageRig, rig) ==
              if EvRig(ev) == rig then OutagesAfter(Only(o, OutageRig, rig), ev) else Only(o, OutageRig, rig)
  {
    hide CloseOutage, OpenOutage, Only;
    OpenOutageOnly(o, rig);
    match ev.said {
      case RigDown(issue, path, needsManager, chargedTo) =>
        OnlyGrows(o, Outage(ev.stamp, issue, path, needsManager, chargedTo, None), OutageRig, rig);
      case RigUp(measured) => CloseOutageOnly(o, EvRig(ev), ev.stamp.at, measured, SaidFixed, rig);
      case _ => CloseOutageOnly(o, EvRig(ev), ev.stamp.at, None, Resumed, rig);
    }
  }

  /** What the table holds of a rig is that reading: searching it for the open row that went down last
      always finds the rig's most recent outage, or none. */
  lemma {:induction false} OutagesAreReadInOrder(events: seq<Ev>, rig: nat)
    requires ProjectAll(NOTHING, events).Some?
    ensures OneAfterAnother(OutagesOf(events, rig), rig)
    ensures Only(ProjectAll(NOTHING, events).value.outages, OutageRig, rig) == OutagesOf(events, rig)
  {
    hide ProjectOne, OutagesAfter, OutagesOf;
    if events == [] {
      assert OutagesOf([], rig) == [] by { NoOutages(rig); }
    } else {
      var init, last := events[..|events| - 1], events[|events| - 1];
      assert events == init + [last];
      OutagesAreReadInOrder(init, rig);
      var f := ProjectAll(NOTHING, init).value;
      OutagesAre(f, last);
      OutagesAfterOnly(f.outages, last, rig);
      OutagesOfGrows(init, last, rig);
    }
  }

  lemma NoOutages(rig: nat)
    ensures OutagesOf([], rig) == []
  {
  }
}
