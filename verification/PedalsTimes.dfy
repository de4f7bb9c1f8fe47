/** How long things took, counted in frames: a fault, an outage, a check; and under whom they are filed. */
module PedalsTimes {
  import opened Options
  import opened Pedals
  import opened PedalsKeep

  /** The seconds of the frames among these inputs. */
  function FrameSecs(xs: seq<Input>): real {
    if xs == [] then 0.0 else (if xs[0].Frame? then xs[0].dt else 0.0) + FrameSecs(xs[1..])
  }

  /** The inputs that leave the rig on one screen. */
  ghost predicate StaysIn(p: Phase, s: State, xs: seq<Input>)
    decreases |xs|
  {
    s.phase == p && (xs != [] ==> Possible(s, xs[0]) && StaysIn(p, After(s, xs[0]), xs[1..]))
  }

  /** A fault or an outage is timed by its frames, which are excluded from the operator's time; meanwhile
      nothing is filed and the report stands. */
  lemma {:induction false} StayIsTimed(p: Phase, s: State, xs: seq<Input>, t: State)
    requires (p == FaultFixing || p == RigDown) && StaysIn(p, s, xs) && Leads(s, xs, t)
    ensures t.phase == p && PhaseSecs(t) == PhaseSecs(s) + FrameSecs(xs) && t.filed == s.filed && t.report == s.report
    ensures t.tally.faultSecs == s.tally.faultSecs + if p == FaultFixing then FrameSecs(xs) else 0.0
    ensures t.tally.downSecs == s.tally.downSecs + if p == RigDown then FrameSecs(xs) else 0.0
    decreases |xs|
  {
    hide Pressed, Ticked;
    if xs != [] {
      match xs[0] {
        case Frame(dt, c) => OneFrame(p, s, dt, c);
        case Press(intent, c) => OnePress(p, s, intent, c);
      }
      StayIsTimed(p, After(s, xs[0]), xs[1..], t);
    }
  }

  lemma OneFrame(p: Phase, s: State, dt: real, c: Option<Turn>)
    requires (p == FaultFixing || p == RigDown) && s.phase == p
    ensures var t := Ticked(s, dt, c);
            && t.phase == p && PhaseSecs(t) == PhaseSecs(s) + dt && t.filed == s.filed && t.report == s.report
            && t.tally.faultSecs == s.tally.faultSecs + (if p == FaultFixing then dt else 0.0)
            && t.tally.downSecs == s.tally.downSecs + (if p == RigDown then dt else 0.0)
  {
  }

  lemma OnePress(p: Phase, s: State, intent: Intent, c: Option<Turn>)
    requires (p == FaultFixing || p == RigDown) && s.phase == p && Offered(s, intent)
    requires Pressed(s, intent, c).phase == p
    ensures Pressed(s, intent, c) == s
  {
  }

  ghost predicate FilesOnly(s: State, t: State, what: What, c: Option<Turn>) {
    t.filed == s.filed + [Filed(what, c)]
  }

  /** From the press that names the part to the press that ends the report: fixed, it files the part and the
      frames in between, which stay excluded; withdrawn, it files them too, and gives every second back. */
  lemma FaultFromFirstToLast(s: State, part: Subsystem, c0: Option<Turn>, xs: seq<Input>, t: State, c: Option<Turn>)
    requires s.phase == FaultClass && s.tally.faultSecs >= 0.0
    requires var begun := Pressed(s, ChooseFault(part), c0); StaysIn(FaultFixing, begun, xs) && Leads(begun, xs, t)
    ensures Offered(t, FaultFixed) && Offered(t, FaultCancel)
    ensures FilesOnly(s, Pressed(s, ChooseFault(part), c0), FaultOpened(Some(part)), c0)
    ensures var fixed := Pressed(t, FaultFixed, c);
            && FilesOnly(t, fixed, FaultClosed(Some(part), FrameSecs(xs)), c) && fixed.phase == Checklist
            && fixed.tally.faultSecs == s.tally.faultSecs + FrameSecs(xs)
    ensures var withdrawn := Pressed(t, FaultCancel, c);
            && FilesOnly(t, withdrawn, FaultCancelled(Some(part), FrameSecs(xs)), c) && withdrawn.phase == Checklist
            && withdrawn.tally.faultSecs == s.tally.faultSecs
  {
    hide StaysIn, Leads;
    StayIsTimed(FaultFixing, Pressed(s, ChooseFault(part), c0), xs, t);
  }

  /** From the press that names the problem to the press that says it is solved. */
  lemma OutageFromFirstToLast(s: State, n: nat, c0: Option<Turn>, xs: seq<Input>, t: State, c: Option<Turn>)
    requires s.phase == IssueMenu && Offered(s, PickIssue(n)) && s.report.node.children[n].Leaf?
    requires var begun := Pressed(s, PickIssue(n), c0); StaysIn(RigDown, begun, xs) && Leads(begun, xs, t)
    ensures FilesOnly(s, Pressed(s, PickIssue(n), c0), WentDown(s.report.node.children[n], s.report.atHandover), c0)
    ensures Offered(t, ProblemSolved)
    ensures var up := Pressed(t, ProblemSolved, c);
            && FilesOnly(t, up, CameUp(FrameSecs(xs)), c) && up.phase == Resetting
            && up.tally.downSecs == s.tally.downSecs + FrameSecs(xs)
    ensures Pressed(t, BugTesting, c) == t
  {
    hide StaysIn, Leads;
    StayIsTimed(RigDown, Pressed(s, PickIssue(n), c0), xs, t);
  }

  // ------------------------------------------------------------- the check

  predicate BeforeWork(p: Phase) {
    p == Standby || p == Checklist || p == FaultClass || p == FaultFixing
  }

  /** Inputs that keep the rig at its check, or standing by with nobody on, and withdraw nothing. */
  ghost predicate StaysAtTheCheck(s: State, xs: seq<Input>)
    decreases |xs|
  {
    BeforeWork(s.phase) && (xs != [] ==>
                              && Possible(s, xs[0]) && (xs[0].Press? ==> xs[0].intent != FaultCancel)
                              && (s.phase == Standby && xs[0].Frame? ==> xs[0].c == None)
                              && StaysAtTheCheck(After(s, xs[0]), xs[1..]))
  }

  /** The seconds of the frames that found the rig not being mended. */
  ghost function SecsNotMending(s: State, xs: seq<Input>): real
    requires StaysAtTheCheck(s, xs)
    decreases |xs|
  {
    if xs == [] then 0.0
    else (if xs[0].Frame? && s.phase != FaultFixing then xs[0].dt else 0.0) + SecsNotMending(After(s, xs[0]), xs[1..])
  }

  lemma OneAtTheCheck(s: State, x: Input)
    requires BeforeWork(s.phase) && Possible(s, x) && BeforeWork(After(s, x).phase)
    requires (x.Press? ==> x.intent != FaultCancel) && (s.phase == Standby && x.Frame? ==> x.c == None)
    ensures After(s, x).clock.t - After(s, x).tally.faultSecs
              == s.clock.t - s.tally.faultSecs + if x.Frame? && s.phase != FaultFixing then x.dt else 0.0
  {
  }

  lemma {:induction false} CheckIsTimed(s: State, xs: seq<Input>, t: State)
    requires StaysAtTheCheck(s, xs) && Leads(s, xs, t)
    ensures t.clock.t - t.tally.faultSecs == s.clock.t - s.tally.faultSecs + SecsNotMending(s, xs)
    decreases |xs|
  {
    hide After, Possible, BeforeWork;
    if xs != [] {
      OneAtTheCheck(s, xs[0]);
      CheckIsTimed(After(s, xs[0]), xs[1..], t);
    }
  }

  /** Whether the check in hand was begun on standby: by the last of these presses. */
  function FromStandby(xs: seq<Input>, before: bool): bool {
    if xs == [] then before
    else
      FromStandby(xs[1..], if xs[0].Frame? then before
                           else if xs[0].intent == StartCheck then true
                           else if xs[0].intent == ChecklistPass || xs[0].intent == Restart then false
                           else before)
  }

  lemma OneFromStandby(s: State, x: Input)
    requires Possible(s, x)
    ensures After(s, x).check.fromStandby <==> FromStandby([x], s.check.fromStandby)
  {
    assert [x][1..] == [];
  }

  lemma {:induction false} RunFromStandby(s: State, xs: seq<Input>, t: State)
    requires Leads(s, xs, t)
    ensures t.check.fromStandby <==> FromStandby(xs, s.check.fromStandby)
    decreases |xs|
  {
    hide After, Possible;
    if xs != [] {
      OneFromStandby(s, xs[0]);
      assert [xs[0]][1..] == [];
      RunFromStandby(After(s, xs[0]), xs[1..], t);
    }
  }

  /** In every run a check is passed early, back to standby, exactly when it was begun there and nobody is on;
      otherwise the rig is handed over. Passed before any other work, it is filed with the seconds of the
      frames since the rig came up, those of faults left out. */
  lemma PassingTheCheck(c0: Option<Turn>, filed: seq<Filed>, xs: seq<Input>, s: State, c: Option<Turn>)
    requires Leads(Boot(c0, filed), xs, s) && s.phase == Checklist
    ensures var t := Pressed(s, ChecklistPass, c);
            && |t.filed| == |s.filed| + 1 && t.filed[|s.filed|].what.CheckPassed? && t.filed[|s.filed|].who == c
            && (t.filed[|s.filed|].what.early <==> FromStandby(xs, false) && c == None)
            && t.phase == (if t.filed[|s.filed|].what.early then Standby else Handover)
            && (StaysAtTheCheck(Boot(c0, filed), xs) ==>
                  t.filed[|s.filed|].what.took == SecsNotMending(Boot(c0, filed), xs))
  {
    hide Leads, StaysAtTheCheck;
    RunFromStandby(Boot(c0, filed), xs, s);
    if StaysAtTheCheck(Boot(c0, filed), xs) {
      CheckIsTimed(Boot(c0, filed), xs, s);
    }
  }

  // ----------------------------------------------------------------- under whom

  /** A press that reports the moment is filed under whoever is on as it is made; the end of a session, and
      of a stint, under the stint's owner. */
  lemma FiledUnderWhoeverIsOn(s: State, intent: Intent, c: Option<Turn>)
    requires Offered(s, intent) && !Lands(s, intent) && |Pressed(s, intent, c).filed| > |s.filed|
    ensures Pressed(s, intent, c).filed[|s.filed|].who ==
              if intent == EndSession then FiledUnder(s.tally.who, c) else c
  {
  }

  lemma BlockUnderItsOwner(s: State, dt: real, c: Option<Turn>)
    requires |Ticked(s, dt, c).filed| > |s.filed|
    ensures var f := Ticked(s, dt, c).filed[|s.filed|];
            && f.who == FiledUnder(s.tally.who, c)
            && f.what == StintEnded(s.tally.episode, s.tally.recordedSecs, AssignedSecs(s) + dt,
                                    s.tally.faultSecs, s.tally.downSecs)
  {
  }
}
