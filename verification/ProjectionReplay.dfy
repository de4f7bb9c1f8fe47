/** The reading of the ledger does not depend on how rigs' events are interleaved, nor on batches. */
module ProjectionReplay {
  import opened Options
  import opened Projection

  // ------------------------------------------------------------ one rig's part

  function Only<T>(s: seq<T>, rigOf: T -> nat, r: nat): seq<T> {
    if s == [] then []
    else if rigOf(s[|s| - 1]) == r then Only(s[..|s| - 1], rigOf, r) + [s[|s| - 1]]
    else Only(s[..|s| - 1], rigOf, r)
  }

  function EvRig(e: Ev): nat { e.stamp.key.rig }
  function SessionRig(s: Session): nat { s.began.key.rig }
  function EpisodeRig(e: Episode): nat { e.stamp.key.rig }
  function CheckRig(c: Check): nat { c.stamp.key.rig }
  function OutageRig(o: Outage): nat { o.stamp.key.rig }
  function BlockRig(b: Block): nat { b.stamp.key.rig }

  /** One rig's rows of every table, in their order. */
  function RigFacts(f: Facts, r: nat): Facts {
    Facts(Only(f.sessions, SessionRig, r), Only(f.episodes, EpisodeRig, r), Only(f.checks, CheckRig, r),
          Only(f.outages, OutageRig, r), Only(f.blocks, BlockRig, r))
  }

  lemma OnlyGrows<T>(s: seq<T>, x: T, rigOf: T -> nat, r: nat)
    ensures Only(s + [x], rigOf, r) == if rigOf(x) == r then Only(s, rigOf, r) + [x] else Only(s, rigOf, r)
  {
    assert (s + [x])[..|s|] == s;
  }

  lemma {:induction false} OnlyHas<T>(s: seq<T>, rigOf: T -> nat, r: nat, x: T)
    ensures x in Only(s, rigOf, r) <==> x in s && rigOf(x) == r
  {
    if s != [] {
      OnlyHas(s[..|s| - 1], rigOf, r, x);
      assert s == s[..|s| - 1] + [s[|s| - 1]];
    }
  }

  // -------------------------------------------------------------- sessions

  lemma SessionOfGrows(s: seq<Session>, x: Session, key: Key)
    ensures SessionOf(s + [x], key) == if SessionOf(s, key) != -1 then SessionOf(s, key)
                                       else if x.began.key == key then |s| else -1
  {
    assert (s + [x])[..|s|] == s;
  }

  /** The session a rig's part finds is the one the whole table finds. */
  lemma {:induction false} SessionOfOnly(s: seq<Session>, key: Key)
    ensures var o := Only(s, SessionRig, key.rig);
            && (SessionOf(s, key) == -1 <==> SessionOf(o, key) == -1)
            && (SessionOf(s, key) != -1 ==> o[SessionOf(o, key)] == s[SessionOf(s, key)])
  {
    if s != [] {
      var init, last := s[..|s| - 1], s[|s| - 1];
      assert s == init + [last];
      SessionOfOnly(init, key);
      OnlyGrows(init, last, SessionRig, key.rig);
      SessionOfGrows(init, last, key);
      if last.began.key.rig == key.rig {
        SessionOfGrows(Only(init, SessionRig, key.rig), last, key);
      }
    }
  }

  lemma WithSessionOnly(s: seq<Session>, stamp: Stamp, r: nat)
    ensures Only(WithSession(s, stamp), SessionRig, r) ==
              if stamp.key.rig == r then WithSession(Only(s, SessionRig, r), stamp) else Only(s, SessionRig, r)
  {
    SessionOfOnly(s, stamp.key);
    OnlyGrows(s, Session(stamp, None, None), SessionRig, r);
  }

  lemma CloseSessionGrows(s: seq<Session>, x: Session, key: Key, at: real, endedBy: Ended)
    ensures CloseSession(s + [x], key, at, endedBy) ==
              if SessionOf(s, key) == -1 && x.began.key == key then s + [Closed(x, at, endedBy)]
              else CloseSession(s, key, at, endedBy) + [x]
  {
    SessionOfGrows(s, x, key);
  }

  lemma {:induction false} CloseSessionOnly(s: seq<Session>, key: Key, at: real, endedBy: Ended, r: nat)
    ensures Only(CloseSession(s, key, at, endedBy), SessionRig, r) ==
              if key.rig == r then CloseSession(Only(s, SessionRig, r), key, at, endedBy) else Only(s, SessionRig, r)
  {
    if s != [] {
      var init, last := s[..|s| - 1], s[|s| - 1];
      assert s == init + [last];
      CloseSessionOnly(init, key, at, endedBy, r);
      CloseSessionGrows(init, last, key, at, endedBy);
      OnlyGrows(init, last, SessionRig, r);
      OnlyGrows(CloseSession(init, key, at, endedBy), last, SessionRig, r);
      OnlyGrows(init, Closed(last, at, endedBy), SessionRig, r);
      SessionOfOnly(init, key);
      CloseSessionGrows(Only(init, SessionRig, r), last, key, at, endedBy);
    }
  }

  // --------------------------------------------------------------- outages

  lemma OpenOutageGrows(s: seq<Outage>, x: Outage, rig: nat)
    ensures OpenOutage(s + [x], rig) ==
              if !OpenAt(x, rig) || (OpenOutage(s, rig) != -1 && s[OpenOutage(s, rig)].stamp.at > x.stamp.at)
              then OpenOutage(s, rig) else |s|
  {
    assert (s + [x])[..|s|] == s;
  }

  lemma {:induction false} OpenOutageOnly(s: seq<Outage>, rig: nat)
    ensures var o := Only(s, OutageRig, rig);
            && (OpenOutage(s, rig) == -1 <==> OpenOutage(o, rig) == -1)
            && (OpenOutage(s, rig) != -1 ==> o[OpenOutage(o, rig)] == s[OpenOutage(s, rig)])
  {
    if s != [] {
      var init, last := s[..|s| - 1], s[|s| - 1];
      assert s == init + [last];
      OpenOutageOnly(init, rig);
      OnlyGrows(init, last, OutageRig, rig);
      OpenOutageGrows(init, last, rig);
      OpenOutageGrows(Only(init, OutageRig, rig), last, rig);
    }
  }

  lemma CloseOutageGrows(s: seq<Outage>, x: Outage, rig: nat, at: real, downSecs: Option<real>, endedBy: UpBy)
    ensures CloseOutage(s + [x], rig, at, downSecs, endedBy) ==
              if OpenOutage(s + [x], rig) == |s| then s + [Fixed(x, at, downSecs, endedBy)]
              else CloseOutage(s, rig, at, downSecs, endedBy) + [x]
  {
    OpenOutageGrows(s, x, rig);
  }

  lemma {:induction false} CloseOutageOnly(s: seq<Outage>, rig: nat, at: real, downSecs: Option<real>, endedBy: UpBy,
                                           r: nat)
    ensures Only(CloseOutage(s, rig, at, downSecs, endedBy), OutageRig, r) ==
              if rig == r then CloseOutage(Only(s, OutageRig, r), rig, at, downSecs, endedBy) else Only(s, OutageRig, r)
  {
    if s != [] {
      var init, last := s[..|s| - 1], s[|s| - 1];
      assert s == init + [last];
      CloseOutageOnly(init, rig, at, downSecs, endedBy, r);
      CloseOutageGrows(init, last, rig, at, downSecs, endedBy);
      OnlyGrows(init, last, OutageRig, r);
      OnlyGrows(CloseOutage(init, rig, at, downSecs, endedBy), last, OutageRig, r);
      OnlyGrows(init, Fixed(last, at, downSecs, endedBy), OutageRig, r);
      OpenOutageOnly(init, rig);
      OpenOutageGrows(init, last, rig);
      OpenOutageGrows(Only(init, OutageRig, r), last, rig);
      CloseOutageGrows(Only(init, OutageRig, r), last, rig, at, downSecs, endedBy);
    }
  }

  // -------------------------------------------------------------- episodes

  lemma {:induction false} SavedOnly(s: seq<Episode>, key: Key)
    ensures SavedCount(Only(s, EpisodeRig, key.rig), key) == SavedCount(s, key)
    ensures SavedSecs(Only(s, EpisodeRig, key.rig), key) == SavedSecs(s, key)
  {
    if s != [] {
      var init, last := s[..|s| - 1], s[|s| - 1];
      SavedOnly(init, key);
      var o := Only(init, EpisodeRig, key.rig);
      assert (o + [last])[..|o|] == o;
    }
  }

  lemma HeldOnly(s: seq<Episode>, id: nat, r: nat)
    ensures EpisodeHeld(Only(s, EpisodeRig, r), id) ==> EpisodeHeld(s, id)
  {
    var o := Only(s, EpisodeRig, r);
    if EpisodeHeld(o, id) {
      var k :| 0 <= k < |o| && o[k].id == id;
      OnlyHas(s, EpisodeRig, r, o[k]);
      assert o[k] in s;
    }
  }

  // ------------------------------------------------------------- one event

  lemma OpenedOnly(f: Facts, ev: Ev, r: nat)
    ensures RigFacts(Opened(f, ev), r) == if EvRig(ev) == r then Opened(RigFacts(f, r), ev) else RigFacts(f, r)
  {
    hide Only, WithSession, CloseOutage;
    WithSessionOnly(f.sessions, ev.stamp, r);
    CloseOutageOnly(f.outages, ev.stamp.key.rig, ev.stamp.at, None, Resumed, r);
  }

  lemma BlockOnly(f: Facts, ev: Ev)
    requires ev.said.StintEnded? && SessionOf(f.sessions, ev.stamp.key) != -1
    ensures SessionOf(RigFacts(f, EvRig(ev)).sessions, ev.stamp.key) != -1
    ensures StintBlock(RigFacts(f, EvRig(ev)), ev) == StintBlock(f, ev)
  {
    hide Only, SavedCount, SavedSecs;
    SessionOfOnly(f.sessions, ev.stamp.key);
    SavedOnly(f.episodes, ev.stamp.key);
  }


  lemma AddEpisodeOnly(f: Facts, ev: Ev, id: Option<nat>, secs: real, saved: bool, score: Option<int>, r: nat)
    requires AddEpisode(f, ev, id, secs, saved, score).Some?
    ensures var g := AddEpisode(f, ev, id, secs, saved, score).value;
            if EvRig(ev) == r then AddEpisode(RigFacts(f, r), ev, id, secs, saved, score) == Some(RigFacts(g, r))
            else RigFacts(g, r) == RigFacts(f, r)
  {
    hide Only, EpisodeHeld;
    HeldOnly(f.episodes, id.value, r);
    OnlyGrows(f.episodes, Episode(id.value, ev.stamp, secs, saved, score), EpisodeRig, r);
  }

  lemma AddCheckOnly(f: Facts, c: Check, r: nat)
    ensures RigFacts(f.(checks := f.checks + [c]), r) ==
              if CheckRig(c) == r then RigFacts(f, r).(checks := RigFacts(f, r).checks + [c]) else RigFacts(f, r)
  {
    hide Only;
    OnlyGrows(f.checks, c, CheckRig, r);
  }

  lemma AddOutageOnly(f: Facts, o: Outage, r: nat)
    ensures RigFacts(f.(outages := f.outages + [o]), r) ==
              if OutageRig(o) == r then RigFacts(f, r).(outages := RigFacts(f, r).outages + [o]) else RigFacts(f, r)
  {
    hide Only;
    OnlyGrows(f.outages, o, OutageRig, r);
  }

  lemma EndStintOnly(f: Facts, ev: Ev, r: nat)
    requires ev.said.StintEnded? && SessionOf(f.sessions, ev.stamp.key) != -1
    ensures var g := f.(blocks := f.blocks + [StintBlock(f, ev)],
                        sessions := CloseSession(f.sessions, ev.stamp.key, ev.stamp.at, Handover));
            if EvRig(ev) == r then
              SessionOf(RigFacts(f, r).sessions, ev.stamp.key) != -1
              && RigFacts(g, r) == RigFacts(f, r).(blocks := RigFacts(f, r).blocks + [StintBlock(RigFacts(f, r), ev)],
                   sessions := CloseSession(RigFacts(f, r).sessions, ev.stamp.key, ev.stamp.at, Handover))
            else RigFacts(g, r) == RigFacts(f, r)
  {
    hide Only, StintBlock, CloseSession;
    OnlyGrows(f.blocks, StintBlock(f, ev), BlockRig, r);
    CloseSessionOnly(f.sessions, ev.stamp.key, ev.stamp.at, Handover, r);
    assert BlockRig(StintBlock(f, ev)) == EvRig(ev) by { BlockIsOfRig(f, ev); }
    if EvRig(ev) == r {
      BlockOnly(f, ev);
    }
  }

  lemma BlockIsOfRig(f: Facts, ev: Ev)
    requires ev.said.StintEnded? && SessionOf(f.sessions, ev.stamp.key) != -1
    ensures BlockRig(StintBlock(f, ev)) == EvRig(ev)
  {
  }

  lemma AppliedOnly(f: Facts, ev: Ev, r: nat)
    requires SessionOf(f.sessions, ev.stamp.key) != -1 && Applied(f, ev).Some?
    ensures EvRig(ev) == r ==> SessionOf(RigFacts(f, r).sessions, ev.stamp.key) != -1
                               && Applied(RigFacts(f, r), ev) == Some(RigFacts(Applied(f, ev).value, r))
    ensures EvRig(ev) != r ==> RigFacts(Applied(f, ev).value, r) == RigFacts(f, r)
  {
    hide Only, StintBlock, CloseSession, CloseOutage, AddEpisode;
    var stamp := ev.stamp;
    SessionOfOnly(f.sessions, stamp.key);
    match ev.said {
      case EpisodeSaved(id, secs, score) => AddEpisodeOnly(f, ev, id, secs, true, score, r);
      case EpisodeDiscarded(id, secs) => AddEpisodeOnly(f, ev, id, secs, false, None, r);
      case ShiftCheck(outcome, subsystem, secs) => AddCheckOnly(f, Check(stamp, None, outcome, subsystem, secs), r);
      case Fault(name, outcome, subsystem, secs) =>
        AddCheckOnly(f, Check(stamp, Some(name), outcome, subsystem, secs), r);
      case RigDown(issue, path, needsManager, chargedTo) =>
        OpenOutageOnly(f.outages, stamp.key.rig);
        AddOutageOnly(f, Outage(stamp, issue, path, needsManager, chargedTo, None), r);
      case RigUp(measured) => CloseOutageOnly(f.outages, stamp.key.rig, stamp.at, measured, SaidFixed, r);
      case StintEnded(_, _) => EndStintOnly(f, ev, r);
      case SessionEnded(said) =>
        CloseSessionOnly(f.sessions, stamp.key, stamp.at, if said.Some? then ByName(said.value) else ByOperator, r);
      case Unread(_) =>
    }
  }

  /** An event changes its own rig's rows as it would on a floor of one rig, and no other rig's. */
  lemma OneEventOneRig(f: Facts, ev: Ev, r: nat)
    requires ProjectOne(f, ev).Some?
    ensures EvRig(ev) == r ==> ProjectOne(RigFacts(f, r), ev) == Some(RigFacts(ProjectOne(f, ev).value, r))
    ensures EvRig(ev) != r ==> RigFacts(ProjectOne(f, ev).value, r) == RigFacts(f, r)
  {
    hide RigFacts, Applied;
    OpenedOnly(f, ev, r);
    AppliedOnly(Opened(f, ev), ev, r);
  }

  /** Projecting the whole ledger and keeping one rig is projecting that rig's events. */
  lemma {:induction false} RigsAreApart(events: seq<Ev>, r: nat)
    requires ProjectAll(NOTHING, events).Some?
    ensures ProjectAll(NOTHING, Only(events, EvRig, r)) == Some(RigFacts(ProjectAll(NOTHING, events).value, r))
  {
    hide ProjectOne, RigFacts;
    if events == [] {
      assert RigFacts(NOTHING, r) == NOTHING by { NothingOfRig(r); }
    } else {
      var init, last := events[..|events| - 1], events[|events| - 1];
      RigsAreApart(init, r);
      OneEventOneRig(ProjectAll(NOTHING, init).value, last, r);
      var mine := Only(init, EvRig, r);
      assert (mine + [last])[..|mine + [last]| - 1] == mine;
    }
  }

  lemma NothingOfRig(r: nat)
    ensures RigFacts(NOTHING, r) == NOTHING
  {
  }

  // --------------------------------------------------- when it all projects

  predicate IsTake(ev: Ev) {
    ev.said.EpisodeSaved? || ev.said.EpisodeDiscarded?
  }

  function TakeId(ev: Ev): Option<nat>
    requires IsTake(ev)
  {
    ev.said.episodeId
  }

  /** Every take has an id, and no id is used twice. */
  ghost predicate NamedOnce(events: seq<Ev>) {
    && (forall i :: 0 <= i < |events| && IsTake(events[i]) ==> TakeId(events[i]).Some?)
    && (forall i, j :: 0 <= i < j < |events| && IsTake(events[i]) && IsTake(events[j]) ==>
         TakeId(events[i]) != TakeId(events[j]))
  }

  ghost predicate Filed(events: seq<Ev>, id: nat) {
    exists i :: 0 <= i < |events| && IsTake(events[i]) && TakeId(events[i]) == Some(id)
  }

  ghost predicate HoldsFiled(f: Facts, events: seq<Ev>) {
    forall id :: EpisodeHeld(f.episodes, id) <==> Filed(events, id)
  }

  lemma FiledGrows(events: seq<Ev>, ev: Ev, id: nat)
    ensures Filed(events + [ev], id) <==> Filed(events, id) || (IsTake(ev) && TakeId(ev) == Some(id))
  {
    var more := events + [ev];
    if Filed(events, id) {
      var i :| 0 <= i < |events| && IsTake(events[i]) && TakeId(events[i]) == Some(id);
      assert more[i] == events[i];
    }
    assert more[|events|] == ev;
  }

  lemma HeldGrows(episodes: seq<Episode>, e: Episode, id: nat)
    ensures EpisodeHeld(episodes + [e], id) <==> EpisodeHeld(episodes, id) || e.id == id
  {
    var more := episodes + [e];
    if EpisodeHeld(episodes, id) {
      var k :| 0 <= k < |episodes| && episodes[k].id == id;
      assert more[k] == episodes[k];
    }
    assert more[|episodes|] == e;
  }

  lemma EpisodesAfter(f: Facts, ev: Ev)
    ensures ProjectOne(f, ev) == None <==>
              IsTake(ev) && (TakeId(ev) == None || EpisodeHeld(f.episodes, TakeId(ev).value))
    ensures ProjectOne(f, ev).Some? && !IsTake(ev) ==> ProjectOne(f, ev).value.episodes == f.episodes
    ensures ProjectOne(f, ev).Some? && IsTake(ev) ==>
              TakeId(ev).Some? && ProjectOne(f, ev).value.episodes == f.episodes + [TakeRow(ev)]
  {
    hide EpisodeHeld, CloseOutage, CloseSession, StintBlock, WithSession;
  }

  /** The row a take becomes. */
  function TakeRow(ev: Ev): Episode
    requires IsTake(ev) && TakeId(ev).Some?
  {
    Episode(TakeId(ev).value, ev.stamp, ev.said.durationSecs, ev.said.EpisodeSaved?,
            if ev.said.EpisodeSaved? then ev.said.score else None)
  }

  lemma NamedOnceGrows(init: seq<Ev>, ev: Ev)
    ensures NamedOnce(init + [ev]) <==>
              NamedOnce(init) && (IsTake(ev) ==> TakeId(ev).Some? && !Filed(init, TakeId(ev).value))
  {
    var events := init + [ev];
    assert events[|init|] == ev;
    assert forall i :: 0 <= i < |init| ==> events[i] == init[i];
    if NamedOnce(init) && (IsTake(ev) ==> TakeId(ev).Some? && !Filed(init, TakeId(ev).value)) {
      forall i | 0 <= i < |init| && IsTake(events[i]) && IsTake(ev) ensures TakeId(events[i]) != TakeId(ev) {
        assert init[i] == events[i];
      }
    }
  }

  /** The whole ledger projects exactly when every take is named and no name is used twice. */
  lemma {:induction false} ProjectsIffNamedOnce(events: seq<Ev>)
    ensures ProjectAll(NOTHING, events).Some? <==> NamedOnce(events)
    ensures ProjectAll(NOTHING, events).Some? ==> HoldsFiled(ProjectAll(NOTHING, events).value, events)
  {
    hide ProjectOne, EpisodeHeld, Filed, NamedOnce;
    if events == [] {
      NothingFiled();
    } else {
      var init, last := events[..|events| - 1], events[|events| - 1];
      assert events == init + [last];
      ProjectsIffNamedOnce(init);
      NamedOnceGrows(init, last);
      if ProjectAll(NOTHING, init).Some? {
        var f := ProjectAll(NOTHING, init).value;
        EpisodesAfter(f, last);
        if ProjectOne(f, last).Some? {
          forall id ensures EpisodeHeld(ProjectOne(f, last).value.episodes, id) <==> Filed(events, id) {
            FiledGrows(init, last, id);
            if IsTake(last) {
              HeldGrows(f.episodes, TakeRow(last), id);
            }
          }
        }
      }
    }
  }

  lemma NothingFiled()
    ensures NamedOnce([]) && forall id :: !Filed([], id) && !EpisodeHeld([], id)
  {
  }

  // ------------------------------------------------------- any interleaving

  /** Each rig's own events, in their own order, are the same in both. */
  ghost predicate SameRigOrder(a: seq<Ev>, b: seq<Ev>) {
    forall r :: Only(a, EvRig, r) == Only(b, EvRig, r)
  }

  lemma {:induction false} PartIsNamedOnce(s: seq<Ev>, r: nat)
    requires NamedOnce(s)
    ensures NamedOnce(Only(s, EvRig, r))
  {
    hide NamedOnce, Filed;
    if s != [] {
      var init, last := s[..|s| - 1], s[|s| - 1];
      assert s == init + [last];
      NamedOnceGrows(init, last);
      PartIsNamedOnce(init, r);
      var mine := Only(init, EvRig, r);
      NamedOnceGrows(mine, last);
      if IsTake(last) && Filed(mine, TakeId(last).value) {
        FiledByMember(mine, TakeId(last).value, init, r);
      }
    }
  }

  lemma FiledByMember(mine: seq<Ev>, id: nat, whole: seq<Ev>, r: nat)
    requires mine == Only(whole, EvRig, r) && Filed(mine, id)
    ensures Filed(whole, id)
  {
    var i :| 0 <= i < |mine| && IsTake(mine[i]) && TakeId(mine[i]) == Some(id);
    OnlyHas(whole, EvRig, r, mine[i]);
    assert mine[i] in mine;
    var k :| 0 <= k < |whole| && whole[k] == mine[i];
  }

  /** No two rigs use one id. */
  ghost predicate RigsDiffer(s: seq<Ev>) {
    forall x, y :: x in s && y in s && IsTake(x) && IsTake(y) && EvRig(x) != EvRig(y) ==> TakeId(x) != TakeId(y)
  }

  lemma NamedOnceByMember(s: seq<Ev>)
    requires NamedOnce(s)
    ensures RigsDiffer(s)
  {
    forall x, y | x in s && y in s && IsTake(x) && IsTake(y) && EvRig(x) != EvRig(y) ensures TakeId(x) != TakeId(y) {
      var i :| 0 <= i < |s| && s[i] == x;
      var j :| 0 <= j < |s| && s[j] == y;
      assert i != j;
    }
  }

  /** Distinct within each rig and between rigs is distinct. */
  lemma {:induction false} PartsMakeNamedOnce(s: seq<Ev>)
    requires (forall r :: NamedOnce(Only(s, EvRig, r))) && RigsDiffer(s)
    ensures NamedOnce(s)
  {
    hide NamedOnce, Filed;
    if s == [] {
      NothingFiled();
    } else {
      var init, last := s[..|s| - 1], s[|s| - 1];
      assert s == init + [last];
      forall r ensures NamedOnce(Only(init, EvRig, r)) {
        assert NamedOnce(Only(s, EvRig, r));
        if EvRig(last) == r {
          NamedOnceGrows(Only(init, EvRig, r), last);
        }
      }
      PartsMakeNamedOnce(init);
      var mine := Only(init, EvRig, EvRig(last));
      assert NamedOnce(Only(s, EvRig, EvRig(last)));
      NamedOnceGrows(mine, last);
      NamedOnceGrows(init, last);
      if IsTake(last) && TakeId(last).Some? && Filed(init, TakeId(last).value) {
        FiledElsewhere(init, last);
      }
    }
  }

  lemma FiledElsewhere(init: seq<Ev>, last: Ev)
    requires IsTake(last) && TakeId(last).Some? && Filed(init, TakeId(last).value) && RigsDiffer(init + [last])
    ensures Filed(Only(init, EvRig, EvRig(last)), TakeId(last).value)
  {
    var s := init + [last];
    var i :| 0 <= i < |init| && IsTake(init[i]) && TakeId(init[i]) == Some(TakeId(last).value);
    assert s[i] in s && s[|init|] in s;
    OnlyHas(init, EvRig, EvRig(last), init[i]);
    var mine := Only(init, EvRig, EvRig(last));
    var k :| 0 <= k < |mine| && mine[k] == init[i];
    assert IsTake(mine[k]);
  }

  lemma SameMembers(a: seq<Ev>, b: seq<Ev>, x: Ev)
    requires SameRigOrder(a, b)
    ensures x in a <==> x in b
  {
    OnlyHas(a, EvRig, EvRig(x), x);
    OnlyHas(b, EvRig, EvRig(x), x);
  }

  /** However rigs' events are interleaved, as long as each rig's own order is kept, the ledger projects
      or not alike, and every rig has the same rows in every table. */
  lemma InterleavingDoesNotMatter(a: seq<Ev>, b: seq<Ev>, r: nat)
    requires SameRigOrder(a, b) && ProjectAll(NOTHING, a).Some?
    ensures ProjectAll(NOTHING, b).Some?
    ensures RigFacts(ProjectAll(NOTHING, b).value, r) == RigFacts(ProjectAll(NOTHING, a).value, r)
  {
    hide ProjectAll, RigFacts, NamedOnce;
    ProjectsIffNamedOnce(a);
    ProjectsIffNamedOnce(b);
    forall q ensures NamedOnce(Only(b, EvRig, q)) {
      PartIsNamedOnce(a, q);
      assert Only(a, EvRig, q) == Only(b, EvRig, q);
    }
    NamedOnceByMember(a);
    forall x, y | x in b && y in b && IsTake(x) && IsTake(y) && EvRig(x) != EvRig(y) ensures TakeId(x) != TakeId(y) {
      SameMembers(a, b, x);
      SameMembers(a, b, y);
    }
    PartsMakeNamedOnce(b);
    RigsAreApart(a, r);
    RigsAreApart(b, r);
    assert Only(a, EvRig, r) == Only(b, EvRig, r);
  }

  /** Projecting in batches of any sizes is projecting at once. */
  lemma {:induction false} BatchesDoNotMatter(batches: seq<seq<Ev>>, f: Facts)
    ensures InBatches(f, batches) == ProjectAll(f, Joined(batches))
  {
    hide ProjectOne;
    if batches != [] {
      BatchesDoNotMatter(batches[..|batches| - 1], f);
      ProjectSplit(f, Joined(batches[..|batches| - 1]), batches[|batches| - 1]);
    }
  }

  function Joined(batches: seq<seq<Ev>>): seq<Ev> {
    if batches == [] then [] else Joined(batches[..|batches| - 1]) + batches[|batches| - 1]
  }

  function InBatches(f: Facts, batches: seq<seq<Ev>>): Option<Facts> {
    if batches == [] then Some(f)
    else
      var g := InBatches(f, batches[..|batches| - 1]);
      if g == None then None else ProjectAll(g.value, batches[|batches| - 1])
  }
}
