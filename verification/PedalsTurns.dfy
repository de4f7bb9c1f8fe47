/** Two stretches of a run: from coming up with nobody due to the first turn, and from the press that
    starts a take to the press that lands it. */
module PedalsTurns {
  import opened Options
  import opened Pedals
  import opened PedalsKeep

  // ----------------------------------------------------------- the first turn

  /** Nobody is on, at every frame and at every press. */
  ghost predicate NobodyOn(xs: seq<Input>) {
    forall i :: 0 <= i < |xs| ==> xs[i].c == None
  }

  /** Up, and not begun: no turn, no owner, nothing waiting; on standby, or in a check begun there. */
  ghost predicate NotBegun(s: State) {
    && s.turnKey == None && s.tally.who == None && s.tally.since == 0.0 && !s.take.handoverDue && !s.take.restDue
    && s.tally.episode == 0 && s.tally.recordedSecs == 0.0
    && match s.phase
       case Standby => true
       case Checklist => s.check.fromStandby
       case FaultClass => s.check.fromStandby
       case FaultFixing => s.check.fromStandby
       case _ => false
  }

  lemma StaysNotBegun(s: State, x: Input)
    requires NotBegun(s) && Possible(s, x) && x.c == None
    ensures NotBegun(After(s, x))
  {
  }

  lemma {:induction false} WaitingRunsHaveNotBegun(s: State, xs: seq<Input>, t: State)
    requires NotBegun(s) && NobodyOn(xs) && Leads(s, xs, t)
    ensures NotBegun(t)
    decreases |xs|
  {
    hide NotBegun, After;
    if xs != [] {
      StaysNotBegun(s, xs[0]);
      assert NobodyOn(xs[1..]) by { assert forall i :: 0 <= i < |xs[1..]| ==> xs[1..][i] == xs[i + 1]; }
      WaitingRunsHaveNotBegun(After(s, xs[0]), xs[1..], t);
    }
  }

  /** The turn costs nobody the time before it: nothing is filed as it begins, the stint is its
      operator's, and the time they have held the rig is none. */
  ghost predicate BeginsFree(s: State, t: State, turn: Turn) {
    t.filed == s.filed && t.tally.who == Some(turn) && AssignedSecs(t) == 0.0
  }

  /** Whatever a rig that came up with nobody due did before its first turn, that turn begins free exactly
      when it finds the rig on standby. In a check, all the time since the rig came up is filed as a stint
      of the operator who has just come on; in a fault report, their stint goes on counting it, and nobody
      owns it. */
  lemma FirstTurnBeginsFreeIff(filed: seq<Filed>, xs: seq<Input>, s: State, dt: real, turn: Turn)
    requires NobodyOn(xs) && Leads(Boot(None, filed), xs, s) && dt >= 0.0
    ensures var t := Ticked(s, dt, Some(turn));
            && (BeginsFree(s, t, turn) <==> s.phase == Standby)
            && (s.phase == Checklist ==>
                  && |t.filed| == |s.filed| + 1 && t.filed[|s.filed|].who == Some(turn)
                  && t.filed[|s.filed|].what == StintEnded(0, 0.0, t.clock.t, s.tally.faultSecs, s.tally.downSecs))
            && (s.phase != Standby && s.phase != Checklist ==>
                  t.filed == s.filed && t.tally.who == None && AssignedSecs(t) == t.clock.t)
  {
    hide Leads;
    assert NotBegun(Boot(None, filed));
    WaitingRunsHaveNotBegun(Boot(None, filed), xs, s);
  }

  lemma {:induction false} OneMore(s: State, xs: seq<Input>, t: State, x: Input)
    requires Leads(s, xs, t) && Possible(t, x)
    ensures Leads(s, xs + [x], After(t, x))
    decreases |xs|
  {
    hide Possible, After;
    if xs == [] {
      assert [x][1..] == [];
    } else {
      OneMore(After(s, xs[0]), xs[1..], t, x);
      assert (xs + [x])[1..] == xs[1..] + [x];
    }
  }

  lemma Then(s0: State, xs: seq<Input>, s: State, x: Input) returns (t: State, more: seq<Input>)
    requires Leads(s0, xs, s) && Possible(s, x)
    ensures t == After(s, x) && more == xs + [x] && Leads(s0, more, t)
  {
    OneMore(s0, xs, s, x);
    t, more := After(s, x), xs + [x];
  }

  lemma Nothing(s: State)
    ensures Leads(s, [], s)
  {
  }

  /** A rig that came up with nobody due, waited, and has begun a check. */
  lemma Checking(waited: real) returns (xs: seq<Input>, s: State)
    requires waited >= 0.0
    ensures NobodyOn(xs) && Leads(Boot(None, []), xs, s)
    ensures s == Boot(None, []).(phase := Checklist, clock := Clock(waited, waited), check := Check(None, true))
  {
    hide Leads;
    var s0 := Boot(None, []);
    Nothing(s0);
    s, xs := Then(s0, [], s0, Frame(waited, None));
    s, xs := Then(s0, xs, s, Press(StartCheck, None));
  }

  /** The first way in: a check begun on standby is open as the first turn begins. The rig rotates out of
      it, so the check is never made. */
  lemma OpenCheckAtTheFirstTurn(turn: Turn, waited: real, dt: real) returns (xs: seq<Input>, s: State)
    requires waited >= 0.0 && dt >= 0.0
    ensures NobodyOn(xs) && Leads(Boot(None, []), xs, s) && s.phase == Checklist
    ensures var late := Ticked(s, dt, Some(turn));
            && late.phase == Handover && late.check.checkedAt == None
            && late.filed == [Filed(CheckRaised, None), Filed(StintEnded(0, 0.0, waited + dt, 0.0, 0.0), Some(turn))]
  {
    hide Leads;
    xs, s := Checking(waited);
  }

  /** And has reported a fault. */
  lemma Fixing(waited: real) returns (xs: seq<Input>, s: State)
    requires waited >= 0.0
    ensures NobodyOn(xs) && Leads(Boot(None, []), xs, s)
    ensures s.phase == FaultFixing && s.clock.t == waited && s.check.checkedAt == None && s.turnKey == None
    ensures s.tally == Tally(0, 0.0, None, 0, 0.0, 0.0, 0.0) && !s.take.handoverDue
  {
    hide Leads;
    xs, s := Checking(waited);
    s, xs := Then(Boot(None, []), xs, s, Press(ReportFault, None));
    s, xs := Then(Boot(None, []), xs, s, Press(ChooseFault(Camera), None));
  }

  /** The second: a fault report is open. The rig stays in it; once the fault is fixed, the next frame
      charges the operator with all of it. */
  lemma OpenFaultAtTheFirstTurn(turn: Turn, waited: real, dt: real) returns (xs: seq<Input>, s: State)
    requires waited >= 0.0 && dt >= 0.0
    ensures NobodyOn(xs) && Leads(Boot(None, []), xs, s) && s.phase == FaultFixing
    ensures var fixed := Pressed(Ticked(s, dt, Some(turn)), FaultFixed, Some(turn));
            var charged := Ticked(fixed, 0.0, Some(turn));
            && |charged.filed| > 0 && charged.phase == Handover && charged.check.checkedAt == None
            && charged.filed[|charged.filed| - 1] == Filed(StintEnded(0, 0.0, waited + dt, dt, 0.0), Some(turn))
  {
    hide Leads, Ticked, Pressed;
    xs, s := Fixing(waited);
    FixedAfterTheTurn(s, dt, turn);
    ChargedAfterTheFault(Pressed(Ticked(s, dt, Some(turn)), FaultFixed, Some(turn)), turn);
  }

  /** A fault still open as the turn begins, then fixed. */
  lemma FixedAfterTheTurn(s: State, dt: real, turn: Turn)
    requires s.phase == FaultFixing && s.check.checkedAt == None && s.turnKey == None && !s.take.handoverDue
    requires s.tally == Tally(0, 0.0, None, 0, 0.0, 0.0, 0.0)
    ensures var mid := Ticked(s, dt, Some(turn));
            && mid.phase == FaultFixing
            && var fixed := Pressed(mid, FaultFixed, Some(turn));
               && fixed.phase == Checklist && fixed.check.checkedAt == None && fixed.turnKey == None
               && !fixed.take.handoverDue && fixed.clock.t == s.clock.t + dt
               && fixed.tally == Tally(0, 0.0, None, 0, 0.0, dt, 0.0)
  {
  }

  /** The next frame rotates out of the check. */
  lemma ChargedAfterTheFault(s: State, turn: Turn)
    requires s.phase == Checklist && s.turnKey == None && !s.take.handoverDue && s.tally.who == None
    ensures var charged := Ticked(s, 0.0, Some(turn));
            && charged.phase == Handover && charged.check == s.check
            && charged.filed == s.filed + [Filed(StintEnded(s.tally.episode, s.tally.recordedSecs, AssignedSecs(s),
                                                            s.tally.faultSecs, s.tally.downSecs), Some(turn))]
  {
  }

  // ------------------------------------------------ the way out of standby

  /** The press or the frame that ends the crew's work: the rig was at work, and now stands by. */
  ghost predicate ComesToRest(s: State, x: Input)
    requires Possible(s, x)
  {
    AtWork(s.phase) && After(s, x).phase == Standby
  }

  /** Whether a check has been passed since the rig last came up or came to rest. */
  ghost function CheckedSince(s: State, xs: seq<Input>, checked: bool): bool
    decreases |xs|
  {
    if xs == [] || !Possible(s, xs[0]) then checked
    else CheckedSince(After(s, xs[0]), xs[1..], CheckedAfter(s, xs[0], checked))
  }

  ghost predicate CheckedAfter(s: State, x: Input, checked: bool)
    requires Possible(s, x)
  {
    if x.Press? && x.intent == ChecklistPass then true
    else if ComesToRest(s, x) || (x.Press? && x.intent == Restart) then false
    else checked
  }

  predicate AtWork(p: Phase) {
    p == Handover || p == Recording || p == Review || p == Resetting
  }

  lemma FrameKeepsTheCheck(s: State, dt: real, c: Option<Turn>)
    ensures var t := Ticked(s, dt, c);
            t.check.checkedAt.Some? <==> s.check.checkedAt.Some? && !(AtWork(s.phase) && t.phase == Standby)
  {
  }

  lemma LandingKeepsTheCheck(s: State, intent: Intent, c: Option<Turn>)
    requires Lands(s, intent)
    ensures var t := Pressed(s, intent, c);
            t.check.checkedAt.Some? <==> s.check.checkedAt.Some? && t.phase != Standby
  {
  }

  lemma PressKeepsTheCheck(s: State, intent: Intent, c: Option<Turn>)
    requires Offered(s, intent) && !Lands(s, intent) && intent != ChecklistPass && intent != Restart
    ensures Pressed(s, intent, c).check.checkedAt == s.check.checkedAt
    ensures AtWork(s.phase) ==> Pressed(s, intent, c).phase != Standby
  {
    hide DiscardTake, ScoreTake, PassCheck, Boot;
  }

  lemma CheckIsKept(s: State, x: Input)
    requires Possible(s, x)
    ensures After(s, x).check.checkedAt.Some? <==> CheckedAfter(s, x, s.check.checkedAt.Some?)
  {
    hide Ticked, Pressed;
    match x {
      case Frame(dt, c) => FrameKeepsTheCheck(s, dt, c);
      case Press(intent, c) =>
        if Lands(s, intent) {
          LandingKeepsTheCheck(s, intent, c);
        } else if intent == ChecklistPass || intent == Restart {
          PassOrRestart(s, intent, c);
        } else {
          PressKeepsTheCheck(s, intent, c);
        }
    }
  }

  lemma PassOrRestart(s: State, intent: Intent, c: Option<Turn>)
    requires Offered(s, intent) && (intent == ChecklistPass || intent == Restart)
    ensures Pressed(s, intent, c).check.checkedAt.Some? <==> intent == ChecklistPass
  {
  }

  lemma {:induction false} RunKeepsTheCheck(s: State, xs: seq<Input>, t: State)
    requires Leads(s, xs, t)
    ensures t.check.checkedAt.Some? <==> CheckedSince(s, xs, s.check.checkedAt.Some?)
    decreases |xs|
  {
    hide After, CheckedAfter, Possible;
    if xs != [] {
      CheckIsKept(s, xs[0]);
      RunKeepsTheCheck(After(s, xs[0]), xs[1..], t);
    }
  }

  /** In every run, a turn that finds the rig on standby takes it to the handover if a check has been passed
      since it came up or came to rest, and otherwise to the check it still owes. */
  lemma WakesByTheCheck(c0: Option<Turn>, filed: seq<Filed>, xs: seq<Input>, s: State, dt: real, turn: Turn)
    requires Leads(Boot(c0, filed), xs, s) && s.phase == Standby
    ensures Ticked(s, dt, Some(turn)).phase == if CheckedSince(Boot(c0, filed), xs, false) then Handover else Checklist
  {
    hide Leads, CheckedSince;
    RunKeepsTheCheck(Boot(c0, filed), xs, s);
  }

  predicate IsPass(x: Input) {
    x.Press? && x.intent == ChecklistPass
  }

  ghost predicate SomePass(xs: seq<Input>) {
    exists i :: 0 <= i < |xs| && IsPass(xs[i])
  }

  lemma PassFirstOrLater(xs: seq<Input>)
    requires xs != []
    ensures SomePass(xs) <==> IsPass(xs[0]) || SomePass(xs[1..])
  {
    assert forall i :: 0 <= i < |xs[1..]| ==> xs[1..][i] == xs[i + 1];
    if i :| 0 < i < |xs| && IsPass(xs[i]) {
      assert IsPass(xs[1..][i - 1]);
    }
  }

  /** On standby, or in a check begun there. */
  ghost predicate StandingBy(s: State) {
    match s.phase
    case Standby => true
    case Checklist => s.check.fromStandby
    case FaultClass => s.check.fromStandby
    case FaultFixing => s.check.fromStandby
    case _ => false
  }

  lemma StaysStandingBy(s: State, x: Input, checked: bool)
    requires StandingBy(s) && Possible(s, x) && x.c == None
    ensures StandingBy(After(s, x)) && (CheckedAfter(s, x, checked) <==> checked || IsPass(x))
  {
  }

  /** With nobody on, only a pass counts. */
  lemma {:induction false} StandingByIsCheckedByAPass(s: State, xs: seq<Input>, t: State, checked: bool)
    requires StandingBy(s) && NobodyOn(xs) && Leads(s, xs, t)
    ensures CheckedSince(s, xs, checked) <==> checked || SomePass(xs)
    decreases |xs|
  {
    hide StandingBy, After, CheckedAfter, Possible, SomePass;
    if xs != [] {
      StaysStandingBy(s, xs[0], checked);
      PassFirstOrLater(xs);
      assert NobodyOn(xs[1..]) by { assert forall i :: 0 <= i < |xs[1..]| ==> xs[1..][i] == xs[i + 1]; }
      StandingByIsCheckedByAPass(After(s, xs[0]), xs[1..], t, CheckedAfter(s, xs[0], checked));
    } else {
      assert !SomePass([]) by { NoPass(); }
    }
  }

  lemma NoPass()
    ensures !SomePass([])
  {
  }

  lemma UncheckedWakesByAPass(s: State, xs: seq<Input>, t: State, dt: real, turn: Turn)
    requires s.phase == Standby && s.check.checkedAt == None
    requires NobodyOn(xs) && Leads(s, xs, t) && t.phase == Standby
    ensures Ticked(t, dt, Some(turn)).phase == if SomePass(xs) then Handover else Checklist
  {
    hide Leads, CheckedSince, SomePass;
    StandingByIsCheckedByAPass(s, xs, t, false);
    RunKeepsTheCheck(s, xs, t);
  }

  /** Coming up with nobody due, and coming to rest from work, leave the rig standing by and unchecked. */
  lemma StandsByUnchecked(filed: seq<Filed>, s: State, x: Input)
    ensures Boot(None, filed).phase == Standby && Boot(None, filed).check.checkedAt == None
    ensures Possible(s, x) && ComesToRest(s, x) ==> After(s, x).phase == Standby && After(s, x).check.checkedAt == None
  {
    if Possible(s, x) && ComesToRest(s, x) {
      CheckIsKept(s, x);
      PassIsNoRest(s, x);
    }
  }

  lemma PassIsNoRest(s: State, x: Input)
    requires Possible(s, x) && ComesToRest(s, x)
    ensures x.Press? ==> x.intent != ChecklistPass
  {
  }

  /** A rig that came up with nobody due, or has come to rest from work, and has stood by with nobody on since,
      wakes to the handover exactly when a check was passed in between, and otherwise to the check. */
  lemma WakesToTheCheckUnlessPassed(filed: seq<Filed>, s: State, x: Input, from: State, xs: seq<Input>, t: State,
                                    dt: real, turn: Turn)
    requires from == Boot(None, filed) || (Possible(s, x) && ComesToRest(s, x) && from == After(s, x))
    requires NobodyOn(xs) && Leads(from, xs, t) && t.phase == Standby
    ensures Ticked(t, dt, Some(turn)).phase == if SomePass(xs) then Handover else Checklist
  {
    hide Leads, ComesToRest, Boot, After, Ticked, SomePass, NobodyOn;
    StandsByUnchecked(filed, s, x);
    UncheckedWakesByAPass(from, xs, t, dt, turn);
  }

  // ---------------------------------------------------- a take, start to landing

  /** Some frame saw nobody on, or a turn other than the one the stint began in. */
  ghost predicate MovedOn(key: Option<nat>, xs: seq<Input>) {
    exists i :: 0 <= i < |xs| && xs[i].Frame? && (xs[i].c == None || KeyOf(xs[i].c) != key)
  }

  lemma {:induction false} DueIffMovedOn(s: State, xs: seq<Input>, t: State)
    requires StaysBusy(s, xs) && Leads(s, xs, t)
    ensures t.turnKey == s.turnKey && Busy(t.phase)
    ensures Due(t) <==> Due(s) || MovedOn(s.turnKey, xs)
    decreases |xs|
  {
    hide Ticked, Pressed, MovedOn;
    if xs == [] {
      assert !MovedOn(s.turnKey, []) by { NobodyMoved(s.turnKey); }
    } else {
      var x, next := xs[0], After(s, xs[0]);
      match x {
        case Frame(dt, c) => FramesLeaveATakeAlone(s, dt, c);
        case Press(intent, c) => SavingLeavesDue(s, intent, c);
      }
      DueIffMovedOn(next, xs[1..], t);
      FirstOrRest(s.turnKey, xs);
    }
  }

  ghost predicate Due(s: State) {
    s.take.handoverDue || s.take.restDue
  }

  lemma NobodyMoved(key: Option<nat>)
    ensures !MovedOn(key, [])
  {
  }

  lemma FirstOrRest(key: Option<nat>, xs: seq<Input>)
    requires xs != []
    ensures MovedOn(key, xs) <==> (xs[0].Frame? && (xs[0].c == None || KeyOf(xs[0].c) != key)) || MovedOn(key, xs[1..])
  {
    assert forall i :: 0 <= i < |xs[1..]| ==> xs[1..][i] == xs[i + 1];
    if i :| 0 < i < |xs| && xs[i].Frame? && (xs[i].c == None || KeyOf(xs[i].c) != key) {
      assert xs[1..][i - 1] == xs[i];
    }
  }

  lemma SavingLeavesDue(s: State, intent: Intent, c: Option<Turn>)
    requires Busy(s.phase) && Offered(s, intent) && Busy(Pressed(s, intent, c).phase)
    ensures Due(Pressed(s, intent, c)) <==> Due(s)
    ensures Pressed(s, intent, c).turnKey == s.turnKey
  {
  }

  /** The seconds of the frames before the take is saved. */
  function RecordingSecs(xs: seq<Input>): real {
    if xs == [] || xs[0].Press? then 0.0 else xs[0].dt + RecordingSecs(xs[1..])
  }

  lemma {:induction false} ReviewTakesNoTime(s: State, xs: seq<Input>, t: State)
    requires s.phase == Review && StaysBusy(s, xs) && Leads(s, xs, t)
    ensures t.phase == Review && t.take.pendingSecs == s.take.pendingSecs
    decreases |xs|
  {
    if xs != [] {
      ReviewTakesNoTime(After(s, xs[0]), xs[1..], t);
    }
  }

  /** A take lasts exactly the frames between its start and the press that saved or discarded it. */
  lemma {:induction false} TakeIsTimed(s: State, xs: seq<Input>, t: State)
    requires s.phase == Recording && StaysBusy(s, xs) && Leads(s, xs, t)
    ensures (if t.phase == Recording then PhaseSecs(t) else t.take.pendingSecs) == PhaseSecs(s) + RecordingSecs(xs)
    decreases |xs|
  {
    if xs != [] {
      var next := After(s, xs[0]);
      match xs[0] {
        case Frame(dt, c) => FramesLeaveATakeAlone(s, dt, c); TakeIsTimed(next, xs[1..], t);
        case Press(intent, c) => SavingLeavesTheTake(s, intent, c); ReviewTakesNoTime(next, xs[1..], t);
      }
    }
  }

  /** From the press that starts a take to the press that lands it, in any run and with any frames and
      presses between: the take is filed once, under whoever was on at the first press and with the seconds it
      was recorded for, and one stint block follows, under the stint's owner, exactly when some frame between
      saw nobody or another turn. */
  lemma TakeFromStartToLanding(c0: Option<Turn>, filed: seq<Filed>, before: seq<Input>, s: State,
                               id: nat, maker: Option<Turn>, xs: seq<Input>, t: State, intent: Intent, c: Option<Turn>)
    requires Leads(Boot(c0, filed), before, s) && Offered(s, StartEpisode(id))
    requires var begun := Pressed(s, StartEpisode(id), maker); StaysBusy(begun, xs) && Leads(begun, xs, t)
    requires Lands(t, intent)
    ensures var done, moved := Pressed(t, intent, c), MovedOn(s.turnKey, xs);
            && |done.filed| == |s.filed| + (if moved then 2 else 1) && s.filed <= done.filed
            && TakeIs(done.filed[|s.filed|], id, RecordingSecs(xs), FiledUnder(maker, c), intent)
            && (moved ==> done.filed[|s.filed| + 1].what.StintEnded?
                          && done.filed[|s.filed| + 1].who == FiledUnder(s.tally.who, c))
  {
    hide Leads, StaysBusy, Boot, MovedOn;
    BootKeeps(c0, filed);
    RunKeeps(Boot(c0, filed), before, s);
    var begun := Pressed(s, StartEpisode(id), maker);
    TakeStaysWithItsMaker(begun, xs, t);
    DueIffMovedOn(begun, xs, t);
    TakeIsTimed(begun, xs, t);
    LandingFilesOnce(t, intent, c);
  }

  ghost predicate TakeIs(f: Filed, id: nat, took: real, who: Option<Turn>, intent: Intent) {
    && f.who == who
    && match f.what
       case TakeDiscarded(i, secs) => i == id && secs == took && intent == Discard
       case TakeSaved(i, secs, score) => i == id && secs == took && intent == Score(score)
       case _ => false
  }

  lemma StartedByNobody(first: Turn, id: nat) returns (xs: seq<Input>, s: State)
    ensures Leads(Boot(Some(first), []), xs, s) && s.phase == Recording && PhaseSecs(s) == 0.0
    ensures s.take.id == id && s.take.who == None && s.tally.who == Some(first)
  {
    hide Leads;
    var s0 := Boot(Some(first), []);
    Nothing(s0);
    s, xs := Then(s0, [], s0, Press(ChecklistPass, Some(first)));
    s, xs := Then(s0, xs, s, Press(StartEpisode(id), None));
  }

  /** A take can have no captured maker: it was begun at a press that found the turn just over, before
      any frame had seen it. It is filed under whoever has come on by the time it lands. */
  lemma UncapturedTakeGoesToTheNext(first: Turn, second: Turn, id: nat) returns (xs: seq<Input>, s: State)
    ensures Leads(Boot(Some(first), []), xs, s) && Lands(s, Discard) && s.take.who == None && s.tally.who == Some(first)
    ensures var done := Pressed(s, Discard, Some(second));
            done.filed[|s.filed|] == Filed(TakeDiscarded(id, 0.0), Some(second))
  {
    hide Leads, Boot, Pressed;
    var s0 := Boot(Some(first), []);
    xs, s := StartedByNobody(first, id);
    FramesLeaveATakeAlone(s, 0.0, None);
    s, xs := Then(s0, xs, s, Frame(0.0, None));
    FramesLeaveATakeAlone(s, 0.0, Some(second));
    s, xs := Then(s0, xs, s, Frame(0.0, Some(second)));
    LandingFilesOnce(s, Discard, Some(second));
  }
}
