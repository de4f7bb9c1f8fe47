/** What every run of the pedals keeps: each second is counted once, a take is never cut, and work is
    filed under the turn it began in. */
module PedalsKeep {
  import opened Options
  import opened Pedals

  // ------------------------------------------------------- where time goes

  /** The seconds of the take being made or waiting for its score. */
  function InHand(s: State): real {
    if s.phase == Recording then PhaseSecs(s) else if s.phase == Review then s.take.pendingSecs else 0.0
  }

  /** No second is counted twice: what was recorded, excluded for faults, excluded for downtime and in
      hand fits the time assigned; the excluded time covers the phase in progress. */
  ghost predicate Accounted(s: State) {
    && s.tally.recordedSecs >= 0.0 && s.tally.faultSecs >= 0.0 && s.tally.downSecs >= 0.0 && InHand(s) >= 0.0
    && s.tally.recordedSecs + s.tally.faultSecs + s.tally.downSecs + InHand(s) <= AssignedSecs(s)
    && (s.phase == FaultFixing ==> 0.0 <= PhaseSecs(s) <= s.tally.faultSecs)
    && (s.phase == RigDown ==> 0.0 <= PhaseSecs(s) <= s.tally.downSecs)
  }

  /** A handover or a rest is due only while there is a take to wait for. */
  ghost predicate WaitsForTake(s: State) {
    s.take.handoverDue || s.take.restDue ==> Busy(s.phase)
  }

  ghost predicate Kept(s: State) {
    Accounted(s) && WaitsForTake(s)
  }

  lemma BootKeeps(c: Option<Turn>, filed: seq<Filed>)
    ensures Kept(Boot(c, filed))
  {
  }

  lemma FrameKeeps(s: State, dt: real, c: Option<Turn>)
    requires Kept(s) && dt >= 0.0
    ensures Kept(Ticked(s, dt, c))
  {
  }

  lemma LandingKeeps(s: State, intent: Intent, c: Option<Turn>)
    requires Kept(s) && Offered(s, intent) && Busy(s.phase)
    ensures Kept(Pressed(s, intent, c))
  {
  }

  lemma WithdrawingKeeps(s: State, c: Option<Turn>)
    requires Kept(s) && Offered(s, FaultCancel)
    ensures Kept(CancelFault(s, c))
  {
  }

  lemma PickingKeeps(s: State, n: nat, c: Option<Turn>)
    requires Kept(s) && Offered(s, PickIssue(n))
    ensures Kept(PickedIssue(s, n, c))
  {
  }

  lemma PressKeeps(s: State, intent: Intent, c: Option<Turn>)
    requires Kept(s) && Offered(s, intent)
    ensures Kept(Pressed(s, intent, c))
  {
    hide CancelFault, PickedIssue, DiscardTake, ScoreTake, Boot;
    if Busy(s.phase) {
      LandingKeeps(s, intent, c);
    } else {
      match intent {
        case Restart => BootKeeps(c, s.filed);
        case FaultCancel => WithdrawingKeeps(s, c);
        case PickIssue(n) => PickingKeeps(s, n, c);
        case _ =>
      }
    }
  }

  lemma {:induction false} RunKeeps(s: State, xs: seq<Input>, t: State)
    requires Kept(s) && Leads(s, xs, t)
    ensures Kept(t)
    decreases |xs|
  {
    hide Kept, After;
    if xs != [] {
      assert Kept(After(s, xs[0])) by { InputKeeps(s, xs[0]); }
      RunKeeps(After(s, xs[0]), xs[1..], t);
    }
  }

  lemma InputKeeps(s: State, x: Input)
    requires Kept(s) && Possible(s, x)
    ensures Kept(After(s, x))
  {
    hide Kept, Ticked, Pressed;
    match x {
      case Frame(dt, c) => FrameKeeps(s, dt, c);
      case Press(intent, c) => PressKeeps(s, intent, c);
    }
  }

  // ------------------------------------------------- what the numbers mean

  /** The share of chargeable time that is data, held between 0 and 1. */
  function Efficiency(s: State): real {
    var chargeable := AssignedSecs(s) - s.tally.faultSecs - s.tally.downSecs;
    if chargeable <= 0.0 then 0.0
    else
      var share := s.tally.recordedSecs / chargeable;
      if share > 1.0 then 1.0 else if share < 0.0 then 0.0 else share
  }

  /** In every reachable state the clamp does nothing: the share is a share. */
  lemma ClampIsNeverNeeded(c: Option<Turn>, filed: seq<Filed>, xs: seq<Input>, s: State)
    requires Leads(Boot(c, filed), xs, s)
    ensures var chargeable := AssignedSecs(s) - s.tally.faultSecs - s.tally.downSecs;
            && 0.0 <= s.tally.recordedSecs <= chargeable
            && Efficiency(s) == if chargeable > 0.0 then s.tally.recordedSecs / chargeable else 0.0
  {
    hide Leads, Boot;
    BootKeeps(c, filed);
    RunKeeps(Boot(c, filed), xs, s);
    var chargeable := AssignedSecs(s) - s.tally.faultSecs - s.tally.downSecs;
    if chargeable > 0.0 {
      ShareIsAShare(s.tally.recordedSecs, chargeable);
    }
  }

  lemma ShareIsAShare(part: real, whole: real)
    requires 0.0 <= part <= whole && whole > 0.0
    ensures 0.0 <= part / whole <= 1.0
  {
    assert part / whole * whole == part;
  }

  /** Withdrawing a report takes back exactly the time it had excluded: the floor at zero never bites. */
  lemma WithdrawingIsExact(c0: Option<Turn>, filed: seq<Filed>, xs: seq<Input>, s: State, c: Option<Turn>)
    requires Leads(Boot(c0, filed), xs, s) && s.phase == FaultFixing
    ensures var t := Pressed(s, FaultCancel, c);
            && t.tally.faultSecs == s.tally.faultSecs - PhaseSecs(s) >= 0.0
            && t.filed[|s.filed|].what == FaultCancelled(s.report.fault, s.tally.faultSecs - t.tally.faultSecs)
  {
    hide Leads, Boot;
    BootKeeps(c0, filed);
    RunKeeps(Boot(c0, filed), xs, s);
  }

  // ---------------------------------------------------- across a restart

  // What a restart may resume: one stint's counters, stamped with the shift and the turn they are of.
  datatype Saved = Saved(shift: Option<nat>, turnKey: Option<nat>, stint: nat, episode: int, recordedSecs: real,
                         faultSecs: real, downSecs: real, elapsedSecs: real)

  function StintRecord(s: State, shift: Option<nat>): Saved {
    Saved(shift, s.turnKey, s.tally.stint, s.tally.episode, s.tally.recordedSecs, s.tally.faultSecs, s.tally.downSecs,
          AssignedSecs(s))
  }

  /** Same turn, same shift, or start clean. */
  function Resumed(s: State, held: Option<Saved>, shift: Option<nat>): State {
    if held == None || shift == None || s.turnKey == None then s
    else if held.value.turnKey != s.turnKey || held.value.shift != shift then s
    else
      s.(tally := s.tally.(stint := held.value.stint, episode := held.value.episode,
                           recordedSecs := held.value.recordedSecs, faultSecs := held.value.faultSecs,
                           downSecs := held.value.downSecs, since := s.clock.t - held.value.elapsedSecs))
  }

  /** Whatever the rig was doing when it was last saved, a restart that resumes keeps every counter and
      the time held, and every second is still counted once; one that does not starts clean. */
  lemma RestartKeepsTheStint(c0: Option<Turn>, filed: seq<Filed>, xs: seq<Input>, s: State,
                             shift: Option<nat>, now: Option<nat>, c: Option<Turn>)
    requires Leads(Boot(c0, filed), xs, s)
    ensures var t := Resumed(Boot(c, s.filed), Some(StintRecord(s, shift)), now);
            && Kept(t)
            && (now.Some? && now == shift && c.Some? && KeyOf(c) == s.turnKey ==>
                  StintRecord(t, now) == StintRecord(s, shift))
            && (!(now.Some? && now == shift && c.Some? && KeyOf(c) == s.turnKey) ==> t == Boot(c, s.filed))
  {
    hide Leads;
    BootKeeps(c0, filed);
    RunKeeps(Boot(c0, filed), xs, s);
  }

  // ----------------------------------------------------- a take is never cut

  /** No clock and no schedule takes a rig out of a take, and none ends a stint during one. */
  lemma FramesLeaveATakeAlone(s: State, dt: real, c: Option<Turn>)
    requires Busy(s.phase)
    ensures var t := Ticked(s, dt, c);
            && t.phase == s.phase && t.filed == s.filed && t.tally == s.tally && t.turnKey == s.turnKey
            && t.take.id == s.take.id && t.take.who == s.take.who && t.take.pendingSecs == s.take.pendingSecs
            && (t.take.restDue <==> s.take.restDue || c == None)
            && (t.take.handoverDue <==> s.take.handoverDue || (c.Some? && KeyOf(c) != s.turnKey))
  {
  }

  /** The inputs that leave a take in hand. */
  ghost predicate StaysBusy(s: State, xs: seq<Input>)
    decreases |xs|
  {
    Busy(s.phase) && (xs != [] ==> Possible(s, xs[0]) && StaysBusy(After(s, xs[0]), xs[1..]))
  }

  /** From the press that starts a take until it lands, however long and whatever the schedule does, the
      take keeps its id and its maker, and the stint keeps its owner; nothing is filed meanwhile. */
  lemma {:induction false} TakeStaysWithItsMaker(s: State, xs: seq<Input>, t: State)
    requires StaysBusy(s, xs) && Leads(s, xs, t)
    ensures t.take.id == s.take.id && t.take.who == s.take.who && t.tally.who == s.tally.who && t.filed == s.filed
    decreases |xs|
  {
    hide Ticked, Pressed;
    if xs != [] {
      match xs[0] {
        case Frame(dt, c) => FramesLeaveATakeAlone(s, dt, c);
        case Press(intent, c) => SavingLeavesTheTake(s, intent, c);
      }
      TakeStaysWithItsMaker(After(s, xs[0]), xs[1..], t);
    }
  }

  lemma SavingLeavesTheTake(s: State, intent: Intent, c: Option<Turn>)
    requires Busy(s.phase) && Offered(s, intent) && Busy(Pressed(s, intent, c).phase)
    ensures intent == Save && Pressed(s, intent, c).take.id == s.take.id && Pressed(s, intent, c).take.who == s.take.who
    ensures Pressed(s, intent, c).tally == s.tally && Pressed(s, intent, c).filed == s.filed
  {
  }

  /** Whom an event that spans time is filed under. */
  function FiledUnder(captured: Option<Turn>, c: Option<Turn>): Option<Turn> {
    if captured.Some? then captured else c
  }

  ghost predicate Lands(s: State, intent: Intent) {
    Busy(s.phase) && Offered(s, intent) && (intent == Discard || intent.Score?)
  }

  /** When a take lands it is filed, and then, exactly when something was waiting for it, one stint block
      under the operator captured when the stint began; otherwise nothing else. */
  lemma LandingFilesOnce(s: State, intent: Intent, c: Option<Turn>)
    requires Lands(s, intent)
    ensures var t, due := Pressed(s, intent, c), s.take.handoverDue || s.take.restDue;
            && |t.filed| == |s.filed| + (if due then 2 else 1) && s.filed <= t.filed
            && t.filed[|s.filed|] == Filed(if intent == Discard then TakeDiscarded(s.take.id, PhaseSecs(s))
                                           else TakeSaved(s.take.id, s.take.pendingSecs, intent.points),
                                           FiledUnder(s.take.who, c))
            && (due ==>
                 t.filed[|s.filed| + 1].what.StintEnded? && t.filed[|s.filed| + 1].who == FiledUnder(s.tally.who, c))
            && (due ==> t.tally.who == c && t.tally.since == s.clock.t && t.tally.stint == s.tally.stint + 1)
            && t.phase == (if s.take.restDue then Standby else if s.take.handoverDue then Handover else Resetting)
            && !t.take.handoverDue && !t.take.restDue
  {
  }

  /** The block counts the take that just landed, and only what this stint recorded. */
  lemma BlockHasTheTake(s: State, points: nat, c: Option<Turn>)
    requires Kept(s) && Lands(s, Score(points)) && (s.take.handoverDue || s.take.restDue)
    ensures Pressed(s, Score(points), c).filed[|s.filed| + 1].what
              == StintEnded(s.tally.episode, s.tally.recordedSecs + InHand(s), AssignedSecs(s),
                            s.tally.faultSecs, s.tally.downSecs)
  {
  }

  /** Work is filed under the captured turn exactly when one was captured, or nobody is on when it lands
      either: a take begun while nobody was on goes to whoever has come on by the time it lands. */
  lemma FiledUnderTheMakerIff(s: State, intent: Intent, c: Option<Turn>)
    requires Lands(s, intent)
    ensures Pressed(s, intent, c).filed[|s.filed|].who == s.take.who <==> s.take.who.Some? || c == None
  {
    LandingFilesOnce(s, intent, c);
  }

  /** The stint's owner changes only where a stint begins. */
  lemma OwnerChangesOnlyAtTheStart(s: State, x: Input)
    requires Possible(s, x) && After(s, x).tally.who != s.tally.who
    ensures FreshTally(After(s, x))
  {
    hide FreshTally;
    match x {
      case Frame(dt, c) => FramesBegin(s, dt, c);
      case Press(intent, c) => PressesBegin(s, intent, c);
    }
  }

  /** A stint that begins now, with nothing counted yet. */
  ghost predicate FreshTally(s: State) {
    s.tally == Tally(s.tally.stint, s.clock.t, s.tally.who, 0, 0.0, 0.0, 0.0)
  }

  lemma FramesBegin(s: State, dt: real, c: Option<Turn>)
    ensures Ticked(s, dt, c).tally.who == s.tally.who || FreshTally(Ticked(s, dt, c))
  {
  }

  lemma PressesBegin(s: State, intent: Intent, c: Option<Turn>)
    requires Offered(s, intent)
    ensures Pressed(s, intent, c).tally.who == s.tally.who || FreshTally(Pressed(s, intent, c))
  {
    hide Offered;
  }
}
