/** The rig's pedal state machine: what a frame of the clock and a press of a pedal do to the shift in
    progress, where each second is counted, and under whose name work is filed. */
module Pedals {
  import opened Options

  // The turn in progress as the schedule has it now: which turn, and who is on it.
  datatype Turn = Turn(from: nat, operator: nat)

  datatype Phase =
    | Standby | Checklist | FaultClass | FaultFixing | Handover | Recording | Review | Resetting | IssueMenu
    | RigDown | SessionEnded

  datatype Subsystem = Gripper | Camera | CanBus

  datatype Issue = Leaf(name: nat, needsManager: bool) | Branch(children: seq<Issue>)

  datatype Intent =
    | StartCheck | ReportFault | ChooseFault(subsystem: Subsystem) | FaultBack | FaultFixed | FaultCancel
    | ChecklistPass | StartEpisode(id: nat) | Discard | Save | Score(points: nat) | OpenIssue | PickIssue(n: nat)
    | ProblemSolved | BugTesting | EndSession | Restart

  // What is filed, in seconds not yet rounded, and the turn it is filed under.
  datatype What =
    | CheckRaised
    | FaultOpened(subsystem: Option<Subsystem>)
    | FaultReclassified(subsystem: Option<Subsystem>)
    | FaultClosed(subsystem: Option<Subsystem>, spent: real)
    | FaultCancelled(subsystem: Option<Subsystem>, charged: real)
    | CheckPassed(early: bool, took: real)
    | TakeDiscarded(id: nat, secs: real)
    | TakeSaved(id: nat, secs: real, score: nat)
    | WentDown(issue: Issue, atHandover: bool)
    | CameUp(secs: real)
    | StintEnded(episodes: int, recordedSecs: real, assignedSecs: real, faultSecs: real, downSecs: real)
    | EndedByOperator

  datatype Filed = Filed(what: What, who: Option<Turn>)

  datatype Clock = Clock(t: real, phaseAt: real)

  // The stint in progress: since when, whose, and where its seconds went.
  datatype Tally = Tally(stint: nat, since: real, who: Option<Turn>, episode: int,
                         recordedSecs: real, faultSecs: real, downSecs: real)

  // The take in hand, and what is waiting for it to land.
  datatype Take = Take(id: nat, who: Option<Turn>, pendingSecs: real, handoverDue: bool, restDue: bool)

  datatype Report = Report(fault: Option<Subsystem>, node: Issue, issue: Option<Issue>, atHandover: bool)

  datatype Check = Check(checkedAt: Option<real>, fromStandby: bool)

  datatype State = State(phase: Phase, clock: Clock, tally: Tally, take: Take, report: Report, check: Check,
                         turnKey: Option<nat>, filed: seq<Filed>)

  const ISSUE_TREE := Branch([Leaf(0, false), Leaf(1, false),
                              Branch([Leaf(2, false), Leaf(3, false),
                                      Branch([Leaf(4, false), Leaf(5, false), Leaf(6, true)])])])

  function KeyOf(c: Option<Turn>): Option<nat> {
    if c.Some? then Some(c.value.from) else None
  }

  function PhaseSecs(s: State): real {
    s.clock.t - s.clock.phaseAt
  }

  function AssignedSecs(s: State): real {
    s.clock.t - s.tally.since
  }

  predicate Busy(p: Phase) {
    p == Recording || p == Review
  }

  // ------------------------------------------------------------- small steps

  function Go(s: State, phase: Phase): State {
    s.(phase := phase, clock := s.clock.(phaseAt := s.clock.t))
  }

  /** Filed under the turn captured for it, or, when there is none, under whoever is on now. */
  function File(s: State, what: What, captured: Option<Turn>, c: Option<Turn>): State {
    s.(filed := s.filed + [Filed(what, if captured.Some? then captured else c)])
  }

  function StintBlock(s: State): What {
    StintEnded(s.tally.episode, s.tally.recordedSecs, AssignedSecs(s), s.tally.faultSecs, s.tally.downSecs)
  }

  function EndStint(s: State, c: Option<Turn>): State {
    File(s, StintBlock(s), s.tally.who, c).(tally := s.tally.(stint := s.tally.stint + 1))
  }

  function BeginStint(s: State, c: Option<Turn>): State {
    s.(tally := Tally(s.tally.stint, s.clock.t, c, 0, 0.0, 0.0, 0.0), turnKey := KeyOf(c),
       take := s.take.(handoverDue := false, restDue := false))
  }

  function Rotate(s: State, c: Option<Turn>): State {
    Go(BeginStint(EndStint(s, c), c), Handover)
  }

  function Rest(s: State, c: Option<Turn>): State {
    Go(BeginStint(EndStint(s, c), c).(check := s.check.(checkedAt := None)), Standby)
  }

  function Wake(s: State, c: Option<Turn>): State {
    Go(BeginStint(s, c), if s.check.checkedAt == None then Checklist else Handover)
  }

  function AfterEpisode(s: State, c: Option<Turn>): State {
    if s.take.restDue then Rest(s, c)
    else if s.take.handoverDue then Rotate(s, c)
    else Go(s, Resetting)
  }

  /** The rig comes up: an empty shift, its check raised; on standby if nobody is due. */
  function Boot(c: Option<Turn>, filed: seq<Filed>): State {
    var s := State(Checklist, Clock(0.0, 0.0), Tally(0, 0.0, c, 0, 0.0, 0.0, 0.0), Take(0, None, 0.0, false, false),
                   Report(None, ISSUE_TREE, None, false), Check(None, false), KeyOf(c), filed);
    File(s, CheckRaised, None, c).(phase := if c.Some? then Checklist else Standby)
  }

  // --------------------------------------------------------------- one frame

  /** Two phases the rig is working in are left for standby when nobody is on; takes wait. */
  predicate RestsFrom(p: Phase) {
    p == Handover || p == Recording || p == Review || p == Resetting
  }

  /** Phases the schedule does not move a rig out of. */
  predicate StaysPut(p: Phase) {
    p == RigDown || p == IssueMenu || p == FaultFixing || p == FaultClass
  }

  function Aged(s: State, dt: real): State {
    s.(clock := s.clock.(t := s.clock.t + dt),
       tally := s.tally.(faultSecs := if s.phase == FaultFixing then s.tally.faultSecs + dt else s.tally.faultSecs,
                         downSecs := if s.phase == RigDown then s.tally.downSecs + dt else s.tally.downSecs))
  }

  /** At most one move of the schedule a frame, tried in this order: wake, rest, hand over. */
  function Seam(s: State, c: Option<Turn>): State {
    if s.phase == Standby && c.Some? then Wake(s, c)
    else if c == None && RestsFrom(s.phase) then
      if Busy(s.phase) then s.(take := s.take.(restDue := true)) else Rest(s, c)
    else if c.Some? && KeyOf(c) != s.turnKey && !s.take.handoverDue then
      if Busy(s.phase) then s.(take := s.take.(handoverDue := true))
      else if StaysPut(s.phase) then s
      else Rotate(s, c)
    else s
  }

  function Ticked(s: State, dt: real, c: Option<Turn>): State {
    if s.phase == SessionEnded then s else Seam(Aged(s, dt), c)
  }

  // --------------------------------------------------------------- one press

  /** What the three pedals offer. */
  predicate Offered(s: State, intent: Intent) {
    match s.phase
    case Standby => intent == StartCheck
    case Checklist => intent == ReportFault || intent == ChecklistPass
    case FaultClass => intent.ChooseFault?
    case FaultFixing => intent == FaultBack || intent == FaultFixed || intent == FaultCancel
    case Handover => intent.StartEpisode? || intent == OpenIssue
    case Recording => intent == Discard || intent == Save
    case Review => intent.Score? && 3 <= intent.points <= 5
    case Resetting => intent.StartEpisode? || intent == OpenIssue
    case IssueMenu => intent.PickIssue? && s.report.node.Branch? && intent.n < |s.report.node.children| && intent.n < 3
    case RigDown => intent == EndSession || intent == ProblemSolved || intent == BugTesting
    case SessionEnded => intent == Restart
  }

  function PassCheck(s: State, c: Option<Turn>): State {
    var early := s.check.fromStandby && c == None;
    var filed := File(s.(check := s.check.(checkedAt := Some(s.clock.t))),
                      CheckPassed(early, s.clock.t - s.tally.faultSecs), None, c);
    Go(filed.(check := filed.check.(fromStandby := false)), if early then Standby else Handover)
  }

  /** Withdrawing a report charges its time back, but never below zero. */
  function CancelFault(s: State, c: Option<Turn>): State {
    var left := s.tally.faultSecs - PhaseSecs(s);
    var charged := s.(tally := s.tally.(faultSecs := if left > 0.0 then left else 0.0));
    var filed := File(charged, FaultCancelled(s.report.fault, PhaseSecs(s)), None, c);
    Go(filed.(report := s.report.(fault := None)), Checklist)
  }

  function DiscardTake(s: State, c: Option<Turn>): State {
    var filed := File(s, TakeDiscarded(s.take.id, PhaseSecs(s)), s.take.who, c);
    AfterEpisode(filed.(tally := s.tally.(episode := s.tally.episode - 1)), c)
  }

  function ScoreTake(s: State, points: nat, c: Option<Turn>): State {
    var counted := s.(tally := s.tally.(recordedSecs := s.tally.recordedSecs + s.take.pendingSecs));
    var filed := File(counted, TakeSaved(s.take.id, s.take.pendingSecs, points), s.take.who, c);
    AfterEpisode(filed.(take := s.take.(pendingSecs := 0.0)), c)
  }

  function PickedIssue(s: State, n: nat, c: Option<Turn>): State
    requires Offered(s, PickIssue(n)) && s.phase == IssueMenu
  {
    var child := s.report.node.children[n];
    if child.Branch? then s.(report := s.report.(node := child))
    else File(Go(s.(report := s.report.(issue := Some(child))), RigDown), WentDown(child, s.report.atHandover), None, c)
  }

  function Pressed(s: State, intent: Intent, c: Option<Turn>): State
    requires Offered(s, intent)
  {
    match intent
    case StartCheck => Go(s.(check := s.check.(fromStandby := true)), Checklist)
    case ReportFault => Go(s, FaultClass)
    case ChooseFault(part) =>
      File(Go(s.(report := s.report.(fault := Some(part))), FaultFixing), FaultOpened(Some(part)), None, c)
    case FaultBack =>
      Go(File(s, FaultReclassified(s.report.fault), None, c).(report := s.report.(fault := None)), FaultClass)
    case FaultFixed =>
      Go(File(s, FaultClosed(s.report.fault, PhaseSecs(s)), None, c).(report := s.report.(fault := None)), Checklist)
    case FaultCancel => CancelFault(s, c)
    case ChecklistPass => PassCheck(s, c)
    case StartEpisode(id) =>
      Go(s.(tally := s.tally.(episode := s.tally.episode + 1), take := s.take.(id := id, who := c)), Recording)
    case Discard => DiscardTake(s, c)
    case Save => Go(s.(take := s.take.(pendingSecs := PhaseSecs(s))), Review)
    case Score(points) => ScoreTake(s, points, c)
    case OpenIssue => Go(s.(report := s.report.(node := ISSUE_TREE, atHandover := s.phase == Handover)), IssueMenu)
    case PickIssue(n) => PickedIssue(s, n, c)
    case ProblemSolved => Go(File(s, CameUp(PhaseSecs(s)), None, c).(report := s.report.(issue := None)), Resetting)
    case BugTesting => s
    case EndSession => Go(File(s, EndedByOperator, s.tally.who, c), SessionEnded)
    case Restart => Boot(c, s.filed)
  }

  // -------------------------------------------------------------------- runs

  datatype Input = Frame(dt: real, c: Option<Turn>) | Press(intent: Intent, c: Option<Turn>)

  predicate Possible(s: State, x: Input) {
    match x
    case Frame(dt, _) => dt >= 0.0
    case Press(intent, _) => Offered(s, intent)
  }

  function After(s: State, x: Input): State
    requires Possible(s, x)
  {
    match x
    case Frame(dt, c) => Ticked(s, dt, c)
    case Press(intent, c) => Pressed(s, intent, c)
  }

  ghost predicate Leads(s: State, xs: seq<Input>, t: State)
    decreases |xs|
  {
    if xs == [] then s == t else Possible(s, xs[0]) && Leads(After(s, xs[0]), xs[1..], t)
  }
}
