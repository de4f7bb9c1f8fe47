/** What can be read off the events a rig files, in every run: where it stands, and that each stint block
    adds up to the takes and outages filed since the one before. */
module PedalsLog {
  import opened Options
  import opened Pedals
  import opened PedalsKeep

  // --------------------------------------------------- a frame and the schedule

  /** What holds right after a frame: nobody on, and the rig is not waiting for an operator; somebody on,
      and it does not stand by, and where a change of turn is not put off it is in the turn in progress. */
  ghost predicate Obeys(s: State, c: Option<Turn>) {
    && (c == None ==> s.phase != Handover && s.phase != Resetting)
    && (c.Some? ==> s.phase != Standby)
    && (c.Some? && (s.phase == Checklist || s.phase == Handover || s.phase == Resetting) ==> s.turnKey == KeyOf(c))
  }

  /** Nobody on: from waiting for an operator to standby, and from no other screen. */
  predicate Moves(p: Phase, q: Phase) {
    (p == Handover || p == Resetting) && q == Standby
  }

  /** Somebody on: from standby to the check or the handover; from a check, a handover or a reset to the
      handover; never out of a take, a fault, a menu or an outage. */
  predicate Turns(p: Phase, q: Phase) {
    || (p == Standby && (q == Checklist || q == Handover))
    || ((p == Checklist || p == Resetting) && q == Handover)
  }

  /** Every frame leaves the rig obeying the schedule; it moves it only to standby when nobody is on, to the
      check or the handover when somebody is; and its seconds go to the fault, the outage, or neither. */
  lemma FramesObeyTheSchedule(s: State, dt: real, c: Option<Turn>)
    requires Kept(s) && s.phase != SessionEnded
    ensures var t := Ticked(s, dt, c);
            && Obeys(t, c)
            && (t.phase != s.phase ==> if c == None then Moves(s.phase, t.phase) else Turns(s.phase, t.phase))
            && t.clock.t == s.clock.t + dt && (t.phase == s.phase == Standby ==> t.tally == s.tally)
            && (t.tally.stint == s.tally.stint && t.phase == s.phase ==>
                  && t.tally.faultSecs == s.tally.faultSecs + (if s.phase == FaultFixing then dt else 0.0)
                  && t.tally.downSecs == s.tally.downSecs + (if s.phase == RigDown then dt else 0.0))
  {
  }

  // ------------------------------------------------- the last event and the phase

  predicate Engaged(p: Phase) {
    p == Recording || p == Review || p == IssueMenu
  }

  predicate AtTheCheck(p: Phase) {
    p == Checklist || p == FaultClass
  }

  /** Where a rig can be, by the last event it filed. */
  predicate Fits(p: Phase, last: What) {
    match last
    case CheckRaised => p == Standby || AtTheCheck(p)
    case FaultOpened(_) => p == FaultFixing
    case FaultReclassified(_) => p == FaultClass
    case FaultClosed(_, _) => AtTheCheck(p)
    case FaultCancelled(_, _) => AtTheCheck(p)
    case CheckPassed(early, _) => p == Handover || Engaged(p) || (early && (p == Standby || AtTheCheck(p)))
    case TakeDiscarded(_, _) => p == Resetting || Engaged(p)
    case TakeSaved(_, _, _) => p == Resetting || Engaged(p)
    case WentDown(_, _) => p == RigDown
    case CameUp(_) => p == Resetting || Engaged(p)
    case StintEnded(_, _, _, _, _) => p == Handover || Engaged(p) || p == Standby || AtTheCheck(p)
    case EndedByOperator => p == SessionEnded
  }

  /** The crew has only just taken the rig: nothing has been recorded or mended since. */
  predicate JustTaken(last: What) {
    last.CheckPassed? || last.StintEnded?
  }

  function Last(filed: seq<Filed>): What
    requires filed != []
  {
    filed[|filed| - 1].what
  }

  /** A saved take carries a score of 3 to 5; what closes, reclassifies or withdraws a fault names the part it
      was opened for; an outage names a leaf of the tree, says that it was found at the handover exactly when
      nothing had been recorded or mended since, and is what a mending mends. */
  predicate EntryOk(filed: seq<Filed>, i: nat)
    requires i < |filed|
  {
    match filed[i].what
    case TakeSaved(_, secs, score) => 3 <= score <= 5
    case FaultReclassified(part) => i > 0 && filed[i - 1].what == FaultOpened(part)
    case FaultClosed(part, _) => i > 0 && filed[i - 1].what == FaultOpened(part)
    case FaultCancelled(part, _) => i > 0 && filed[i - 1].what == FaultOpened(part)
    case CameUp(_) => i > 0 && filed[i - 1].what.WentDown?
    case WentDown(issue, atHandover) => issue.Leaf? && i > 0 && (atHandover <==> JustTaken(filed[i - 1].what))
    case _ => true
  }

  ghost predicate LogFits(s: State) {
    && s.filed != [] && Fits(s.phase, Last(s.filed)) && (forall i :: 0 <= i < |s.filed| ==> EntryOk(s.filed, i))
    && (s.phase == FaultFixing ==> Last(s.filed) == FaultOpened(s.report.fault))
    && (s.phase == IssueMenu ==> s.report.atHandover == JustTaken(Last(s.filed)))
    && (s.check.checkedAt.Some? && s.phase == Standby ==> Last(s.filed).CheckPassed?)
  }

  lemma EntriesGrow(filed: seq<Filed>, e: Filed)
    requires forall i :: 0 <= i < |filed| ==> EntryOk(filed, i)
    requires EntryOk(filed + [e], |filed|)
    ensures forall i :: 0 <= i < |filed + [e]| ==> EntryOk(filed + [e], i)
  {
    forall i | 0 <= i < |filed + [e]| ensures EntryOk(filed + [e], i) {
      assert i < |filed| ==> EntryOk(filed, i);
    }
  }

  lemma FrameFits(s: State, dt: real, c: Option<Turn>)
    requires LogFits(s) && Kept(s) && dt >= 0.0
    ensures LogFits(Ticked(s, dt, c))
  {
    hide Accounted;
    var t := Ticked(s, dt, c);
    if |t.filed| > |s.filed| {
      EntriesGrow(s.filed, t.filed[|s.filed|]);
    }
  }

  lemma LandingFits(s: State, intent: Intent, c: Option<Turn>)
    requires LogFits(s) && Lands(s, intent)
    ensures LogFits(Pressed(s, intent, c))
  {
    hide Fits;
    var t := Pressed(s, intent, c);
    LandingFilesOnce(s, intent, c);
    EntriesGrow(s.filed, t.filed[|s.filed|]);
    if |t.filed| > |s.filed| + 1 {
      EntriesGrow(s.filed + [t.filed[|s.filed|]], t.filed[|s.filed| + 1]);
      assert t.filed == s.filed + [t.filed[|s.filed|]] + [t.filed[|s.filed| + 1]];
    } else {
      assert t.filed == s.filed + [t.filed[|s.filed|]];
    }
    assert Fits(t.phase, Last(t.filed)) by { hide *; LandedFits(s, intent, c); }
  }

  lemma LandedFits(s: State, intent: Intent, c: Option<Turn>)
    requires Lands(s, intent)
    ensures Pressed(s, intent, c).filed != [] && Fits(Pressed(s, intent, c).phase, Last(Pressed(s, intent, c).filed))
  {
    hide Pressed;
    LandingFilesOnce(s, intent, c);
  }

  lemma PressFits(s: State, intent: Intent, c: Option<Turn>)
    requires LogFits(s) && Offered(s, intent)
    ensures LogFits(Pressed(s, intent, c))
  {
    hide LogFits, Boot, CancelFault, PassCheck, PickedIssue;
    if Lands(s, intent) {
      LandingFits(s, intent, c);
    } else {
      match intent {
        case Restart => BootFits(s, c);
        case FaultCancel => CancelFits(s, c);
        case ChecklistPass => PassFits(s, c);
        case PickIssue(n) => PickFits(s, n, c);
        case _ => OtherPressFits(s, intent, c);
      }
    }
  }

  lemma BootFits(s: State, c: Option<Turn>)
    requires LogFits(s)
    ensures LogFits(Boot(c, s.filed))
  {
    EntriesGrow(s.filed, Filed(CheckRaised, c));
  }

  lemma CancelFits(s: State, c: Option<Turn>)
    requires LogFits(s) && Offered(s, FaultCancel)
    ensures LogFits(CancelFault(s, c))
  {
    EntriesGrow(s.filed, Filed(FaultCancelled(s.report.fault, PhaseSecs(s)), c));
  }

  lemma PassFits(s: State, c: Option<Turn>)
    requires LogFits(s) && Offered(s, ChecklistPass)
    ensures LogFits(PassCheck(s, c))
  {
    EntriesGrow(s.filed, PassCheck(s, c).filed[|s.filed|]);
  }

  lemma PickFits(s: State, n: nat, c: Option<Turn>)
    requires LogFits(s) && Offered(s, PickIssue(n))
    ensures LogFits(PickedIssue(s, n, c))
  {
    var t := PickedIssue(s, n, c);
    if |t.filed| > |s.filed| {
      EntriesGrow(s.filed, t.filed[|s.filed|]);
    }
  }

  lemma OtherPressFits(s: State, intent: Intent, c: Option<Turn>)
    requires LogFits(s) && Offered(s, intent) && !Lands(s, intent)
    requires intent != Restart && intent != FaultCancel && intent != ChecklistPass && !intent.PickIssue?
    ensures LogFits(Pressed(s, intent, c))
  {
    hide Boot, CancelFault, PassCheck, PickedIssue, DiscardTake, ScoreTake;
    var t := Pressed(s, intent, c);
    if |t.filed| > |s.filed| {
      EntriesGrow(s.filed, t.filed[|s.filed|]);
    }
  }

  /** In every run the last event filed tells where the rig can be, every saved take has a score on offer, and
      every outage names a leaf and says whether it was found at the handover. */
  lemma {:induction false} RunFits(s: State, xs: seq<Input>, t: State)
    requires LogFits(s) && Kept(s) && Leads(s, xs, t)
    ensures LogFits(t) && Kept(t)
    decreases |xs|
  {
    hide LogFits, Kept, Ticked, Pressed;
    if xs != [] {
      match xs[0] {
        case Frame(dt, c) => FrameFits(s, dt, c);
        case Press(intent, c) => PressFits(s, intent, c);
      }
      InputKeeps(s, xs[0]);
      RunFits(After(s, xs[0]), xs[1..], t);
    }
  }

  lemma LastEventTellsThePhase(c: Option<Turn>, xs: seq<Input>, s: State)
    requires Leads(Boot(c, []), xs, s)
    ensures s.filed != [] && Fits(s.phase, Last(s.filed))
    ensures forall i :: 0 <= i < |s.filed| ==> EntryOk(s.filed, i)
  {
    hide Leads;
    BootKeeps(c, []);
    assert LogFits(Boot(c, []));
    RunFits(Boot(c, []), xs, s);
  }

  // ------------------------------------------------------------ what is shown

  /** What is on the screen: a part being fixed exactly while it is, a problem named exactly while the rig is
      down, and seconds waiting for a score exactly while a take does. */
  predicate Shown(s: State) {
    && (s.report.fault.Some? <==> s.phase == FaultFixing)
    && (s.phase != Review ==> s.take.pendingSecs == 0.0)
    && (s.phase != SessionEnded ==> (s.report.issue.Some? <==> s.phase == RigDown))
    && (s.phase == RigDown ==>
          s.filed != [] && Last(s.filed).WentDown? && s.report.issue == Some(Last(s.filed).issue))
  }

  lemma FrameShows(s: State, dt: real, c: Option<Turn>)
    requires Shown(s)
    ensures Shown(Ticked(s, dt, c))
  {
  }

  lemma PressShows(s: State, intent: Intent, c: Option<Turn>)
    requires Shown(s) && Offered(s, intent)
    ensures Shown(Pressed(s, intent, c))
  {
    hide Boot, DiscardTake, ScoreTake, CancelFault, PickedIssue, PassCheck;
    match intent {
      case Restart => assert Shown(Boot(c, s.filed)) by { hide *; BootShows(c, s.filed); }
      case Discard => assert Shown(DiscardTake(s, c)) by { hide *; DiscardShows(s, c); }
      case Score(points) => assert Shown(ScoreTake(s, points, c)) by { hide *; ScoreShows(s, points, c); }
      case FaultCancel => assert Shown(CancelFault(s, c)) by { hide *; CancelShows(s, c); }
      case ChecklistPass => assert Shown(PassCheck(s, c)) by { hide *; PassShows(s, c); }
      case PickIssue(n) => assert Shown(PickedIssue(s, n, c)) by { hide *; PickShows(s, n, c); }
      case _ =>
    }
  }

  lemma DiscardShows(s: State, c: Option<Turn>)
    requires Shown(s) && s.phase == Recording
    ensures Shown(DiscardTake(s, c))
  {
  }

  lemma ScoreShows(s: State, points: nat, c: Option<Turn>)
    requires Shown(s) && s.phase == Review
    ensures Shown(ScoreTake(s, points, c))
  {
  }

  lemma CancelShows(s: State, c: Option<Turn>)
    requires Shown(s) && s.phase == FaultFixing
    ensures Shown(CancelFault(s, c))
  {
  }

  lemma PassShows(s: State, c: Option<Turn>)
    requires Shown(s) && s.phase == Checklist
    ensures Shown(PassCheck(s, c))
  {
  }

  lemma PickShows(s: State, n: nat, c: Option<Turn>)
    requires Shown(s) && s.phase == IssueMenu && Offered(s, PickIssue(n))
    ensures Shown(PickedIssue(s, n, c))
  {
  }

  lemma BootShows(c: Option<Turn>, filed: seq<Filed>)
    ensures Shown(Boot(c, filed))
  {
  }

  /** In every run the screen shows what is being mended, what is broken and what waits for a score, and
      nothing left over from before. */
  lemma {:induction false} RunShows(s: State, xs: seq<Input>, t: State)
    requires Shown(s) && Leads(s, xs, t)
    ensures Shown(t)
    decreases |xs|
  {
    hide Shown, Ticked, Pressed;
    if xs != [] {
      match xs[0] {
        case Frame(dt, c) => FrameShows(s, dt, c);
        case Press(intent, c) => PressShows(s, intent, c);
      }
      RunShows(After(s, xs[0]), xs[1..], t);
    }
  }

  // ------------------------------------------------------------- the sums

  // Saved takes, their seconds, and the seconds of outages mended.
  datatype Sums = Sums(takes: nat, secs: real, down: real)

  const NO_SUMS := Sums(0, 0.0, 0.0)

  function Added(t: Sums, what: What): Sums {
    match what
    case StintEnded(_, _, _, _, _) => NO_SUMS
    case CheckRaised => NO_SUMS
    case TakeSaved(_, secs, _) => Sums(t.takes + 1, t.secs + secs, t.down)
    case CameUp(secs) => t.(down := t.down + secs)
    case _ => t
  }

  /** What has been filed since the last block, or since the rig came up. */
  function Since(filed: seq<Filed>): Sums {
    if filed == [] then NO_SUMS else Added(Since(filed[..|filed| - 1]), filed[|filed| - 1].what)
  }

  lemma SinceGrows(filed: seq<Filed>, e: Filed)
    ensures Since(filed + [e]) == Added(Since(filed), e.what)
  {
    assert (filed + [e])[..|filed|] == filed;
  }

  /** A block says what was filed since the block before it. */
  predicate BlockTrue(filed: seq<Filed>, i: nat)
    requires i < |filed|
  {
    filed[i].what.StintEnded? ==>
      var b, t := filed[i].what, Since(filed[..i]);
      b.episodes == t.takes && b.recordedSecs == t.secs && b.downSecs == t.down
  }

  predicate NotYetWorking(p: Phase) {
    p == Standby || p == Checklist || p == FaultClass || p == FaultFixing
  }

  /** The tally says what has been filed, and what is under way. */
  ghost predicate Tallied(s: State, t: Sums) {
    && s.tally.episode == t.takes + (if Busy(s.phase) then 1 else 0) && s.tally.recordedSecs == t.secs
    && (s.phase != SessionEnded ==> s.tally.downSecs == t.down + if s.phase == RigDown then PhaseSecs(s) else 0.0)
    && (NotYetWorking(s.phase) ==> t == NO_SUMS)
  }

  ghost predicate AddsUp(s: State) {
    Tallied(s, Since(s.filed)) && forall i :: 0 <= i < |s.filed| ==> BlockTrue(s.filed, i)
  }

  /** A block, against the sums before it. */
  predicate Agrees(what: What, t: Sums) {
    what.StintEnded? ==> what.episodes == t.takes && what.recordedSecs == t.secs && what.downSecs == t.down
  }

  lemma OneMoreEntry(filed: seq<Filed>, e: Filed)
    requires (forall i :: 0 <= i < |filed| ==> BlockTrue(filed, i)) && Agrees(e.what, Since(filed))
    ensures Since(filed + [e]) == Added(Since(filed), e.what)
    ensures forall i :: 0 <= i < |filed + [e]| ==> BlockTrue(filed + [e], i)
  {
    var more := filed + [e];
    SinceGrows(filed, e);
    forall i | 0 <= i < |more| ensures BlockTrue(more, i) {
      if i < |filed| {
        assert BlockTrue(filed, i);
        assert more[..i] == filed[..i];
      } else {
        assert more[..i] == filed;
      }
    }
  }

  /** The tally after a step that files at most one event. */
  ghost predicate StepTallied(s: State, t: State, sums: Sums) {
    if t.filed == s.filed then Tallied(t, sums)
    else
      && |t.filed| == |s.filed| + 1 && t.filed == s.filed + [t.filed[|s.filed|]]
      && Agrees(t.filed[|s.filed|].what, sums) && Tallied(t, Added(sums, t.filed[|s.filed|].what))
  }

  lemma FrameTallied(s: State, dt: real, c: Option<Turn>, sums: Sums)
    requires Tallied(s, sums) && WaitsForTake(s)
    ensures StepTallied(s, Ticked(s, dt, c), sums)
  {
  }

  lemma PressTallied(s: State, intent: Intent, c: Option<Turn>, sums: Sums)
    requires Tallied(s, sums) && Offered(s, intent) && !Lands(s, intent)
    ensures StepTallied(s, Pressed(s, intent, c), sums)
  {
    hide Boot, CancelFault, PassCheck, PickedIssue, DiscardTake, ScoreTake;
    match intent {
      case Restart => assert StepTallied(s, Boot(c, s.filed), sums) by { hide *; BootTallied(s, c, sums); }
      case FaultCancel => assert StepTallied(s, CancelFault(s, c), sums) by { hide *; CancelTallied(s, c, sums); }
      case ChecklistPass => assert StepTallied(s, PassCheck(s, c), sums) by { hide *; PassTallied(s, c, sums); }
      case PickIssue(n) => assert StepTallied(s, PickedIssue(s, n, c), sums) by { hide *; PickTallied(s, n, c, sums); }
      case _ =>
    }
  }

  lemma BootTallied(s: State, c: Option<Turn>, sums: Sums)
    ensures StepTallied(s, Boot(c, s.filed), sums)
  {
  }

  lemma CancelTallied(s: State, c: Option<Turn>, sums: Sums)
    requires Tallied(s, sums) && s.phase == FaultFixing
    ensures StepTallied(s, CancelFault(s, c), sums)
  {
  }

  lemma PassTallied(s: State, c: Option<Turn>, sums: Sums)
    requires Tallied(s, sums) && s.phase == Checklist
    ensures StepTallied(s, PassCheck(s, c), sums)
  {
  }

  lemma PickTallied(s: State, n: nat, c: Option<Turn>, sums: Sums)
    requires Tallied(s, sums) && s.phase == IssueMenu && Offered(s, PickIssue(n))
    ensures StepTallied(s, PickedIssue(s, n, c), sums)
  {
  }

  /** The tally after a landing, which files the take and, when something waited for it, a block. */
  ghost predicate LandedTallied(s: State, t: State, sums: Sums) {
    var due := s.take.handoverDue || s.take.restDue;
    && |t.filed| == |s.filed| + (if due then 2 else 1) && s.filed <= t.filed
    && !t.filed[|s.filed|].what.StintEnded?
    && var mid := Added(sums, t.filed[|s.filed|].what);
       if due then Agrees(t.filed[|s.filed| + 1].what, mid) && Tallied(t, Added(mid, t.filed[|s.filed| + 1].what))
       else Tallied(t, mid)
  }

  lemma DiscardTallied(s: State, c: Option<Turn>, sums: Sums)
    requires Tallied(s, sums) && s.phase == Recording
    ensures LandedTallied(s, DiscardTake(s, c), sums)
  {
  }

  lemma ScoreTallied(s: State, points: nat, c: Option<Turn>, sums: Sums)
    requires Tallied(s, sums) && s.phase == Review
    ensures LandedTallied(s, ScoreTake(s, points, c), sums)
  {
  }

  lemma LandingTallied(s: State, intent: Intent, c: Option<Turn>, sums: Sums)
    requires Tallied(s, sums) && Lands(s, intent)
    ensures LandedTallied(s, Pressed(s, intent, c), sums)
  {
    hide DiscardTake, ScoreTake, LandedTallied, Tallied;
    if intent == Discard {
      DiscardTallied(s, c, sums);
    } else {
      ScoreTallied(s, intent.points, c, sums);
    }
  }

  lemma InputAddsUp(s: State, x: Input)
    requires AddsUp(s) && WaitsForTake(s) && Possible(s, x) && !(x.Press? && Lands(s, x.intent))
    ensures AddsUp(After(s, x))
  {
    hide Since, Tallied, Ticked, Pressed, Agrees;
    var t := After(s, x);
    match x {
      case Frame(dt, c) => FrameTallied(s, dt, c, Since(s.filed));
      case Press(intent, c) => PressTallied(s, intent, c, Since(s.filed));
    }
    if t.filed != s.filed {
      OneMoreEntry(s.filed, t.filed[|s.filed|]);
    }
  }

  lemma LandingAddsUp(s: State, intent: Intent, c: Option<Turn>)
    requires AddsUp(s) && Kept(s) && Lands(s, intent)
    ensures AddsUp(Pressed(s, intent, c))
  {
    hide Since, Tallied, Pressed, Agrees, Added;
    var t, due := Pressed(s, intent, c), s.take.handoverDue || s.take.restDue;
    LandingTallied(s, intent, c, Since(s.filed));
    var take := t.filed[|s.filed|];
    assert Agrees(take.what, Since(s.filed)) by { NoBlockAgrees(take.what, Since(s.filed)); }
    OneMoreEntry(s.filed, take);
    if due {
      OneMoreEntry(s.filed + [take], t.filed[|s.filed| + 1]);
      assert t.filed == s.filed + [take] + [t.filed[|s.filed| + 1]];
    } else {
      assert t.filed == s.filed + [take];
    }
  }

  lemma NoBlockAgrees(what: What, t: Sums)
    requires !what.StintEnded?
    ensures Agrees(what, t)
  {
  }

  lemma {:induction false} RunAddsUp(s: State, xs: seq<Input>, t: State)
    requires AddsUp(s) && Kept(s) && Leads(s, xs, t)
    ensures AddsUp(t)
    decreases |xs|
  {
    hide AddsUp, Kept, Ticked, Pressed;
    if xs != [] {
      if xs[0].Press? && Lands(s, xs[0].intent) {
        LandingAddsUp(s, xs[0].intent, xs[0].c);
      } else {
        assert WaitsForTake(s) by { KeptWaits(s); }
        InputAddsUp(s, xs[0]);
      }
      InputKeeps(s, xs[0]);
      RunAddsUp(After(s, xs[0]), xs[1..], t);
    }
  }

  /** In every run each stint block counts exactly the takes saved, their seconds and the outages mended that
      were filed since the block before it: a discarded take leaves no trace in it. */
  lemma BlocksAddUp(c: Option<Turn>, xs: seq<Input>, s: State, i: nat)
    requires Leads(Boot(c, []), xs, s) && i < |s.filed|
    ensures BlockTrue(s.filed, i)
    ensures s.tally.episode == Since(s.filed).takes + (if Busy(s.phase) then 1 else 0)
    ensures s.tally.recordedSecs == Since(s.filed).secs
  {
    hide Leads;
    BootKeeps(c, []);
    StartsEmpty(c);
    RunAddsUp(Boot(c, []), xs, s);
  }

  lemma KeptWaits(s: State)
    requires Kept(s)
    ensures WaitsForTake(s)
  {
  }

  lemma StartsEmpty(c: Option<Turn>)
    ensures AddsUp(Boot(c, []))
  {
    SinceGrows([], Filed(CheckRaised, c));
    assert [] + [Filed(CheckRaised, c)] == [Filed(CheckRaised, c)];
  }
}
