/** The rig itself: one record that a frame and a press change step by step. */
module PedalsRig {
  import opened Options
  import opened Pedals

  class Rig {
    var phase: Phase
    var clock: Clock
    var tally: Tally
    var take: Take
    var report: Report
    var check: Check
    var turnKey: Option<nat>
    var filed: seq<Filed>

    function Now(): State
      reads this
    {
      State(phase, clock, tally, take, report, check, turnKey, filed)
    }

    constructor (current: Option<Turn>)
      ensures Now() == Boot(current, [])
    {
      phase, clock, tally := Checklist, Clock(0.0, 0.0), Tally(0, 0.0, current, 0, 0.0, 0.0, 0.0);
      take, report := Take(0, None, 0.0, false, false), Report(None, ISSUE_TREE, None, false);
      check, turnKey, filed := Check(None, false), KeyOf(current), [];
      new;
      Emit(CheckRaised, None, current);
      phase := if current.Some? then Checklist else Standby;
    }

    /** The same rig starting its shift again. */
    method StartAgain(current: Option<Turn>)
      modifies this
      ensures Now() == Boot(current, old(filed))
    {
      phase, clock, tally := Checklist, Clock(0.0, 0.0), Tally(0, 0.0, current, 0, 0.0, 0.0, 0.0);
      take, report := Take(0, None, 0.0, false, false), Report(None, ISSUE_TREE, None, false);
      check, turnKey := Check(None, false), KeyOf(current);
      Emit(CheckRaised, None, current);
      phase := if current.Some? then Checklist else Standby;
    }

    method Emit(what: What, who: Option<Turn>, current: Option<Turn>)
      modifies this`filed
      ensures Now() == File(old(Now()), what, who, current)
    {
      filed := filed + [Filed(what, if who.Some? then who else current)];
    }

    method GoTo(next: Phase)
      modifies this`phase, this`clock
      ensures Now() == Go(old(Now()), next)
    {
      phase := next;
      clock := clock.(phaseAt := clock.t);
    }

    method FileStint(current: Option<Turn>)
      modifies this`filed, this`tally
      ensures Now() == EndStint(old(Now()), current)
    {
      Emit(StintEnded(tally.episode, tally.recordedSecs, clock.t - tally.since, tally.faultSecs, tally.downSecs),
           tally.who, current);
      tally := tally.(stint := tally.stint + 1);
    }

    method OpenStint(current: Option<Turn>)
      modifies this`tally, this`turnKey, this`take
      ensures Now() == BeginStint(old(Now()), current)
    {
      tally := tally.(since := clock.t);
      turnKey := KeyOf(current);
      tally := tally.(who := current);
      tally := tally.(episode := 0, recordedSecs := 0.0, faultSecs := 0.0, downSecs := 0.0);
      take := take.(handoverDue := false, restDue := false);
    }

    method HandOver(current: Option<Turn>)
      modifies this
      ensures Now() == Rotate(old(Now()), current)
    {
      hide EndStint, BeginStint, Go;
      FileStint(current);
      OpenStint(current);
      GoTo(Handover);
    }

    method ComeToRest(current: Option<Turn>)
      modifies this
      ensures Now() == Rest(old(Now()), current)
    {
      FileStint(current);
      OpenStint(current);
      check := check.(checkedAt := None);
      GoTo(Standby);
    }

    method WakeUp(current: Option<Turn>)
      modifies this
      ensures Now() == Wake(old(Now()), current)
    {
      OpenStint(current);
      GoTo(if check.checkedAt == None then Checklist else Handover);
    }

    method TakeLanded(current: Option<Turn>)
      modifies this
      ensures Now() == AfterEpisode(old(Now()), current)
    {
      hide Rest, Rotate, Go;
      if take.restDue {
        ComeToRest(current);
      } else if take.handoverDue {
        HandOver(current);
      } else {
        GoTo(Resetting);
      }
    }

    /** One frame: the clock, the time that is not charged, then the schedule. */
    method Tick(dt: real, current: Option<Turn>)
      modifies this
      ensures Now() == Ticked(old(Now()), dt, current)
    {
      hide Seam;
      if phase != SessionEnded {
        clock := clock.(t := clock.t + dt);
        if phase == FaultFixing {
          tally := tally.(faultSecs := tally.faultSecs + dt);
        }
        if phase == RigDown {
          tally := tally.(downSecs := tally.downSecs + dt);
        }
        assert Now() == Aged(old(Now()), dt);
        KeepStep(current);
      }
    }

    /** The last part of a frame: at most one move of the schedule. */
    method KeepStep(current: Option<Turn>)
      modifies this
      ensures Now() == Seam(old(Now()), current)
    {
      hide Rest, Rotate, Wake;
      var busy := phase == Recording || phase == Review;
      if phase == Standby && current.Some? {
        WakeUp(current);
      } else if current == None && RestsFrom(phase) {
        if busy {
          take := take.(restDue := true);
        } else {
          ComeToRest(current);
        }
      } else if current.Some? && KeyOf(current) != turnKey && !take.handoverDue {
        if busy {
          take := take.(handoverDue := true);
        } else if !StaysPut(phase) {
          HandOver(current);
        }
      }
    }

    /** One press of a pedal that is offered. */
    method Dispatch(intent: Intent, current: Option<Turn>)
      requires Offered(Now(), intent)
      modifies this
      ensures Now() == Pressed(old(Now()), intent, current)
    {
      hide CancelFault, PassCheck, DiscardTake, ScoreTake, PickedIssue, Boot;
      match intent {
        case StartCheck =>
          check := check.(fromStandby := true);
          GoTo(Checklist);
        case ReportFault =>
          GoTo(FaultClass);
        case ChooseFault(part) =>
          report := report.(fault := Some(part));
          GoTo(FaultFixing);
          Emit(FaultOpened(report.fault), None, current);
        case FaultBack =>
          Emit(FaultReclassified(report.fault), None, current);
          report := report.(fault := None);
          GoTo(FaultClass);
        case FaultFixed =>
          Emit(FaultClosed(report.fault, clock.t - clock.phaseAt), None, current);
          report := report.(fault := None);
          GoTo(Checklist);
        case FaultCancel =>
          Withdraw(current);
        case ChecklistPass =>
          Pass(current);
        case StartEpisode(id) =>
          tally := tally.(episode := tally.episode + 1);
          take := take.(id := id);
          take := take.(who := current);
          GoTo(Recording);
        case Discard =>
          ThrowAway(current);
        case Save =>
          take := take.(pendingSecs := clock.t - clock.phaseAt);
          GoTo(Review);
        case Score(points) =>
          Keep(points, current);
        case OpenIssue =>
          report := report.(atHandover := phase == Handover);
          report := report.(node := ISSUE_TREE);
          GoTo(IssueMenu);
        case PickIssue(n) =>
          Pick(n, current);
        case ProblemSolved =>
          Emit(CameUp(clock.t - clock.phaseAt), None, current);
          report := report.(issue := None);
          GoTo(Resetting);
        case BugTesting =>
        case EndSession =>
          Emit(EndedByOperator, tally.who, current);
          GoTo(SessionEnded);
        case Restart =>
          StartAgain(current);
      }
    }

    method Withdraw(current: Option<Turn>)
      modifies this
      ensures Now() == CancelFault(old(Now()), current)
    {
      var left := tally.faultSecs - (clock.t - clock.phaseAt);
      tally := tally.(faultSecs := if left > 0.0 then left else 0.0);
      Emit(FaultCancelled(report.fault, clock.t - clock.phaseAt), None, current);
      report := report.(fault := None);
      GoTo(Checklist);
    }

    method Pass(current: Option<Turn>)
      modifies this
      ensures Now() == PassCheck(old(Now()), current)
    {
      check := check.(checkedAt := Some(clock.t));
      var early := check.fromStandby && current == None;
      Emit(CheckPassed(early, clock.t - tally.faultSecs), None, current);
      check := check.(fromStandby := false);
      GoTo(if early then Standby else Handover);
    }

    method ThrowAway(current: Option<Turn>)
      modifies this
      ensures Now() == DiscardTake(old(Now()), current)
    {
      hide AfterEpisode;
      Emit(TakeDiscarded(take.id, clock.t - clock.phaseAt), take.who, current);
      tally := tally.(episode := tally.episode - 1);
      TakeLanded(current);
    }

    method Keep(points: nat, current: Option<Turn>)
      modifies this
      ensures Now() == ScoreTake(old(Now()), points, current)
    {
      hide AfterEpisode;
      tally := tally.(recordedSecs := tally.recordedSecs + take.pendingSecs);
      Emit(TakeSaved(take.id, take.pendingSecs, points), take.who, current);
      take := take.(pendingSecs := 0.0);
      TakeLanded(current);
    }

    method Pick(n: nat, current: Option<Turn>)
      requires phase == IssueMenu && Offered(Now(), PickIssue(n))
      modifies this
      ensures Now() == PickedIssue(old(Now()), n, current)
    {
      var child := report.node.children[n];
      if child.Branch? {
        report := report.(node := child);
      } else {
        report := report.(issue := Some(child));
        GoTo(RigDown);
        Emit(WentDown(child, report.atHandover), None, current);
      }
    }
  }
}
