/** What the pedals offer on each screen, and where the menu of problems leads. */
module PedalsMenu {
  import opened Options
  import opened Pedals
  import opened PedalsKeep

  /** The leaf that a list of picks leads to, if it leads to one. */
  function LeafAt(node: Issue, picks: seq<nat>): Option<Issue> {
    match node
    case Leaf(_, _) => if picks == [] then Some(node) else None
    case Branch(children) =>
      if picks == [] || picks[0] >= |children| then None else LeafAt(children[picks[0]], picks[1..])
  }

  function Picks(picks: seq<nat>, c: Option<Turn>): (xs: seq<Input>)
    ensures |xs| == |picks| && forall i :: 0 <= i < |xs| ==> xs[i] == Press(PickIssue(picks[i]), c)
  {
    seq(|picks|, i requires 0 <= i < |picks| => Press(PickIssue(picks[i]), c))
  }

  /** At most three ways on, so that every one has a pedal. */
  predicate FitsThePedals(node: Issue) {
    node.Branch? ==> |node.children| <= 3 && forall i :: 0 <= i < |node.children| ==> FitsThePedals(node.children[i])
  }

  lemma {:induction false} PicksLead(s: State, picks: seq<nat>, c: Option<Turn>) returns (t: State)
    requires s.phase == IssueMenu && s.report.node.Branch? && LeafAt(s.report.node, picks).Some?
    requires FitsThePedals(s.report.node)
    ensures Leads(s, Picks(picks, c), t) && t.phase == RigDown
    ensures t.filed == s.filed + [Filed(WentDown(LeafAt(s.report.node, picks).value, s.report.atHandover), c)]
    ensures t.report.issue == LeafAt(s.report.node, picks)
    decreases |picks|
  {
    var x := Press(PickIssue(picks[0]), c);
    var next, xs := After(s, x), Picks(picks, c);
    assert xs[0] == x && xs[1..] == Picks(picks[1..], c);
    if s.report.node.children[picks[0]].Branch? {
      t := PicksLead(next, picks[1..], c);
    } else {
      assert picks[1..] == [];
      t := next;
    }
  }

  lemma TreeFitsThePedals()
    ensures FitsThePedals(ISSUE_TREE)
  {
    var third := ISSUE_TREE.children[2];
    assert FitsThePedals(third.children[2]);
    assert FitsThePedals(third);
  }

  /** From a handover or a reset the menu opens at the root, and every leaf of the tree is reached by the picks
      that lead to it: the rig goes down with that problem, filed as found at the handover exactly when it was. */
  lemma MenuLeadsToEveryLeaf(s: State, picks: seq<nat>, c: Option<Turn>) returns (t: State)
    requires (s.phase == Handover || s.phase == Resetting) && LeafAt(ISSUE_TREE, picks).Some?
    ensures Leads(s, [Press(OpenIssue, c)] + Picks(picks, c), t) && t.phase == RigDown
    ensures t.filed == s.filed + [Filed(WentDown(LeafAt(ISSUE_TREE, picks).value, s.phase == Handover), c)]
  {
    var open := After(s, Press(OpenIssue, c));
    TreeFitsThePedals();
    t := PicksLead(open, picks, c);
    var xs := [Press(OpenIssue, c)] + Picks(picks, c);
    assert xs[0] == Press(OpenIssue, c) && xs[1..] == Picks(picks, c);
  }

  // ---------------------------------------------------------- screen by screen

  /** These presses and no other. */
  ghost predicate Takes(s: State, presses: set<Intent>) {
    forall intent :: Offered(s, intent) <==> intent in presses
  }

  /** What each screen takes; the menu takes as many picks as it has ways on, which are never more than the
      pedals. */
  lemma ScreensTake(s: State, intent: Intent)
    ensures s.phase == Standby ==> Takes(s, {StartCheck})
    ensures s.phase == Checklist ==> Takes(s, {ReportFault, ChecklistPass})
    ensures s.phase == FaultClass ==> (Offered(s, intent) <==> intent.ChooseFault?)
    ensures s.phase == FaultFixing ==> Takes(s, {FaultBack, FaultFixed, FaultCancel})
    ensures s.phase == Handover || s.phase == Resetting ==>
              (Offered(s, intent) <==> intent.StartEpisode? || intent == OpenIssue)
    ensures s.phase == Recording ==> Takes(s, {Discard, Save})
    ensures s.phase == Review ==> Takes(s, {Score(3), Score(4), Score(5)})
    ensures s.phase == RigDown ==> Takes(s, {EndSession, ProblemSolved, BugTesting})
    ensures s.phase == SessionEnded ==> Takes(s, {Restart})
  {
  }
}
