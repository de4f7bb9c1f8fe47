/** The audit of a built plan, and the proof that its divisibility tests are exact. */
module Audits {
  import opened Arithmetic
  import opened FloorTurns
  import opened HolderRuns
  import opened OffTime
  import opened Options
  import opened Plans
  import HoldRotation
  import StintRotation

  datatype Level = CleanFit | UnevenTurns | DoesNotFit

  /** `structureOk` is "operator cycle fits the shift" in hold and "time on rig divides the hour" in
      rotate; `turnsOk` is the soft check on turn lengths; `balancedOk` is checked in rotate only. */
  datatype Audit = Audit(structureOk: bool, turnsOk: bool, budgetOk: bool, balancedOk: bool, level: Level)

  // --------------------------------------------------------- turn lengths

  /** The runs of one rig as the scan files them: a single zero when there are no blocks. */
  function RunsFiled(holders: seq<int>): seq<int> {
    if |holders| == 0 then [0] else Lengths(Spans(holders, 0))
  }

  /** Without the first and the last, when there are others. */
  function Inner(runs: seq<int>): seq<int> {
    if |runs| > 2 then runs[1..|runs| - 1] else runs
  }

  function RunsAudited(holders: seq<int>, inner: bool): seq<int> {
    if inner then Inner(RunsFiled(holders)) else RunsFiled(holders)
  }

  /** The first and the last turn of a rig are left out only when there is one between them. */
  lemma EndsAreLeftOutIff(holders: seq<int>)
    requires holders != []
    ensures var all, audited := Lengths(Spans(holders, 0)), RunsAudited(holders, true);
            if |all| <= 2 then audited == all else all == [all[0]] + audited + [all[|all| - 1]]
  {
  }

  ghost predicate TurnOn(plan: Plan, inner: bool, k: nat, ri: nat, minutes: int)
    requires RowsFit(plan) && k < |plan.groups|
  {
    exists run :: run in RunsAudited(Holders(plan.groups[k].rows, ri, plan.nBlocks), inner)
                  && minutes == run * plan.config.blockMin
  }

  ghost predicate GroupHasTurn(plan: Plan, inner: bool, k: nat, minutes: int)
    requires RowsFit(plan) && k < |plan.groups|
  {
    exists ri :: 0 <= ri < |plan.groups[k].group.rigs| && TurnOn(plan, inner, k, ri, minutes)
  }

  /** Some turn of the plan lasts so many minutes. */
  ghost predicate HasTurn(plan: Plan, inner: bool, minutes: int)
    requires RowsFit(plan)
  {
    exists k :: 0 <= k < |plan.groups| && GroupHasTurn(plan, inner, k, minutes)
  }

  method RigLengths(plan: Plan, inner: bool, k: nat, ri: nat) returns (lens: set<int>)
    requires RowsFit(plan) && k < |plan.groups|
    ensures forall m :: m in lens <==> TurnOn(plan, inner, k, ri, m)
  {
    var holders := Holders(plan.groups[k].rows, ri, plan.nBlocks);
    var runs := RunLengths(holders);
    var audited := if inner then Inner(runs) else runs;
    assert audited == RunsAudited(holders, inner);
    lens := set run | run in audited :: run * plan.config.blockMin;
  }

  method GroupLengths(plan: Plan, inner: bool, k: nat) returns (lens: set<int>)
    requires RowsFit(plan) && k < |plan.groups|
    ensures forall m :: m in lens <==> GroupHasTurn(plan, inner, k, m)
  {
    lens := {};
    for ri := 0 to |plan.groups[k].group.rigs|
      invariant forall m :: m in lens <==> exists r :: 0 <= r < ri && TurnOn(plan, inner, k, r, m)
    {
      var here := RigLengths(plan, inner, k, ri);
      lens := lens + here;
    }
  }

  /** Every turn length in the plan, or every one between the first and the last turn of its rig. */
  method StintLengths(plan: Plan, inner: bool) returns (lens: set<int>)
    requires RowsFit(plan)
    ensures forall m :: m in lens <==> HasTurn(plan, inner, m)
  {
    lens := {};
    for k := 0 to |plan.groups|
      invariant forall m :: m in lens <==> exists j :: 0 <= j < k && GroupHasTurn(plan, inner, j, m)
    {
      var here := GroupLengths(plan, inner, k);
      lens := lens + here;
    }
  }

  // ------------------------------------------------------------- budgets

  function AllTotals(groups: seq<PlannedGroup>): seq<Totals> {
    if groups == [] then [] else AllTotals(groups[..|groups| - 1]) + groups[|groups| - 1].totals
  }

  ghost predicate BudgetOk(plan: Plan) {
    var every := AllTotals(plan.groups);
    every != [] && forall t :: t in every ==> t == FULL_DAY
  }

  /** The distinct values of each total over every operator; the budget holds when they are 360, 60, 60. */
  method BudgetCheck(plan: Plan) returns (ok: bool)
    ensures ok <==> BudgetOk(plan)
  {
    var every: seq<Totals> := [];
    for k := 0 to |plan.groups|
      invariant every == AllTotals(plan.groups[..k])
    {
      assert plan.groups[..k + 1][..k] == plan.groups[..k];
      every := every + plan.groups[k].totals;
    }
    assert plan.groups[..|plan.groups|] == plan.groups;
    var work := set t | t in every :: t.work;
    var brk := set t | t in every :: t.brk;
    var think := set t | t in every :: t.think;
    ok := work == {360} && brk == {60} && think == {60};
    if ok {
      forall t | t in every ensures t == FULL_DAY {
        assert t.work in work && t.brk in brk && t.think in think;
      }
      assert 360 in work;
    }
    if BudgetOk(plan) {
      assert every[0] in every && FULL_DAY in every;
    }
  }

  lemma {:induction false} AllTotalsHas(groups: seq<PlannedGroup>, k: nat, i: nat)
    requires k < |groups| && i < |groups[k].totals|
    ensures groups[k].totals[i] in AllTotals(groups)
  {
    if k < |groups| - 1 {
      AllTotalsHas(groups[..|groups| - 1], k, i);
    }
  }

  lemma {:induction false} AllTotalsOnly(groups: seq<PlannedGroup>, t: Totals) returns (k: nat, i: nat)
    requires t in AllTotals(groups)
    ensures k < |groups| && i < |groups[k].totals| && groups[k].totals[i] == t
  {
    var last := |groups| - 1;
    if t in groups[last].totals {
      k := last;
      i :| 0 <= i < |groups[last].totals| && groups[last].totals[i] == t;
    } else {
      k, i := AllTotalsOnly(groups[..last], t);
    }
  }

  // ------------------------------------------------------------ time off

  predicate IsOff(c: Cell) {
    c == Break || c == Think
  }

  function OffRunsIn(row: seq<Cell>, k: nat): nat
    requires k <= |row|
  {
    if k == 0 then 0
    else OffRunsIn(row, k - 1) + if IsOff(row[k - 1]) && (k == 1 || !IsOff(row[k - 2])) then 1 else 0
  }

  method OffRuns(row: seq<Cell>) returns (runs: nat)
    ensures runs == OffRunsIn(row, |row|)
  {
    runs := 0;
    for b := 0 to |row|
      invariant runs == OffRunsIn(row, b)
    {
      var prevOff := b > 0 && IsOff(row[b - 1]);
      if IsOff(row[b]) && !prevOff {
        runs := runs + 1;
      }
    }
  }

  /** Only the first group is asked. */
  ghost predicate Balanced(plan: Plan)
    requires plan.groups != []
  {
    var rows := plan.groups[0].rows;
    forall i :: 0 < i < |rows| ==> OffRunsIn(rows[i], |rows[i]|) == OffRunsIn(rows[0], |rows[0]|)
  }

  method BalanceCheck(plan: Plan) returns (ok: bool)
    requires plan.groups != []
    ensures ok <==> Balanced(plan)
  {
    var rows, counts: seq<nat> := plan.groups[0].rows, [];
    for i := 0 to |rows|
      invariant |counts| == i && forall j :: 0 <= j < i ==> counts[j] == OffRunsIn(rows[j], |rows[j]|)
    {
      var c := OffRuns(rows[i]);
      counts := counts + [c];
    }
    ok := forall i :: 0 <= i < |counts| ==> counts[i] == counts[0];
    if ok {
      assert forall i :: 0 <= i < |counts| ==> counts[i] == counts[0];
    } else {
      var i :| 0 <= i < |counts| && counts[i] != counts[0];
      assert OffRunsIn(rows[i], |rows[i]|) != OffRunsIn(rows[0], |rows[0]|);
    }
  }

  // ---------------------------------------------------------- the verdict

  ghost predicate OneLength(plan: Plan, inner: bool)
    requires RowsFit(plan)
  {
    exists m :: HasTurn(plan, inner, m) && forall o :: HasTurn(plan, inner, o) ==> o == m
  }

  /** A remainder by nothing is not zero. */
  predicate Divides(d: int, n: int) {
    d != 0 && n % d == 0
  }

  /** Asking the first group of a plan that has none fails; only rotate asks. */
  predicate AuditThrows(plan: Plan) {
    plan.config.mode == Rotate && plan.groups == []
  }

  /** Two hard checks and a soft one in hold, three hard and a soft one in rotate. */
  ghost predicate Audited(a: Audit, plan: Plan)
    requires RowsFit(plan) && !AuditThrows(plan)
  {
    && (a.structureOk <==> if plan.config.mode == Hold then plan.nBlocks % 8 == 0
                           else Divides(StintMinutes(plan.config), 60))
    && (a.turnsOk <==> OneLength(plan, plan.config.mode == Hold))
    && (a.budgetOk <==> BudgetOk(plan))
    && (a.balancedOk <==> plan.config.mode == Hold || Balanced(plan))
    && a.level == (if !a.structureOk || !a.budgetOk || !a.balancedOk then DoesNotFit
                   else if !a.turnsOk then UnevenTurns else CleanFit)
  }

  lemma OneLengthIffSingleton(plan: Plan, inner: bool, lens: set<int>)
    requires RowsFit(plan) && forall m :: m in lens <==> HasTurn(plan, inner, m)
    ensures OneLength(plan, inner) <==> |lens| == 1
  {
    hide HasTurn;
    if |lens| == 1 {
      var m := OnlyMember(lens);
      assert HasTurn(plan, inner, m);
    }
    if OneLength(plan, inner) {
      var m :| HasTurn(plan, inner, m) && forall o :: HasTurn(plan, inner, o) ==> o == m;
      forall o | o in lens ensures o == m {
        assert HasTurn(plan, inner, o);
      }
      Alone(lens, m);
    }
  }

  method OneLengthCheck(plan: Plan, inner: bool) returns (ok: bool)
    requires RowsFit(plan)
    ensures ok <==> OneLength(plan, inner)
  {
    var lens := StintLengths(plan, inner);
    OneLengthIffSingleton(plan, inner, lens);
    ok := |lens| == 1;
  }

  method AuditPlan(plan: Plan) returns (a: Option<Audit>)
    requires RowsFit(plan)
    ensures a == None <==> AuditThrows(plan)
    ensures a.Some? ==> Audited(a.value, plan)
  {
    hide OneLength, BudgetOk, Balanced, RowsFit;
    var hold := plan.config.mode == Hold;
    var turnsOk := OneLengthCheck(plan, hold);
    var structureOk := if hold then plan.nBlocks % 8 == 0 else Divides(StintMinutes(plan.config), 60);
    var budgetOk := BudgetCheck(plan);
    var balancedOk := true;
    if !hold {
      if plan.groups == [] {
        return None;
      }
      balancedOk := BalanceCheck(plan);
    }
    var hard := !structureOk || !budgetOk || !balancedOk;
    a := Some(Audit(structureOk, turnsOk, budgetOk, balancedOk,
                    if !hard && turnsOk then CleanFit else if !hard then UnevenTurns else DoesNotFit));
  }

  lemma Alone<T>(s: set<T>, m: T)
    requires m in s && forall o :: o in s ==> o == m
    ensures |s| == 1
  {
    assert s == {m};
  }

  lemma OnlyMember<T>(s: set<T>) returns (x: T)
    requires |s| == 1
    ensures s == {x}
  {
    x :| x in s;
    assert |s - {x}| == 0;
    assert s - {x} == {};
  }

  // ------------------------------------------------------- the exactness

  /** A floor of the reference sheet: every group is four operators on three rigs. */
  ghost predicate FourOnThree(groups: seq<Group>) {
    groups != [] && forall k :: 0 <= k < |groups| ==> |groups[k].ops| == 4 && |groups[k].rigs| == 3
  }

  /** The stint of the off-cycle operator i of four is off in, and how many blocks it has. */
  function OffPhase(mode: Mode, i: int): int {
    if mode == Hold then 3 - i else i
  }

  function PhaseLength(cfg: Config): int {
    if cfg.mode == Hold then 1 else cfg.stintBlocks
  }

  lemma RawRowInPhase(mode: Mode, i: nat, nBlocks: nat, S: nat)
    requires i < 4 && S > 0
    ensures OffInPhase(RawRow(mode, i, nBlocks, 4, 3, S), if mode == Hold then 1 else S, 4, OffPhase(mode, i))
  {
    var row, len, phase := RawRow(mode, i, nBlocks, 4, 3, S), if mode == Hold then 1 else S, OffPhase(mode, i);
    forall b | 0 <= b < |row| ensures BlockInPhase(row, b, len, 4, phase) {
      if mode == Hold {
        HoldRotation.SheetIsClosed(i, b, 4);
      } else {
        StintRotation.RotateByPlace(i, b, 4, 3, S);
      }
    }
  }

  lemma DayOfBuilt(plan: Plan, cfg: Config, groups: seq<Group>, k: nat, i: nat)
    requires Askable(cfg) && Built(plan, cfg, groups) && FourOnThree(groups) && k < |groups| && i < 4
    ensures |plan.groups[k].totals| == 4
    ensures plan.groups[k].totals[i] == FULL_DAY <==>
              PhaseBudget(plan.nBlocks, PhaseLength(cfg), cfg.blockMin, OffPhase(cfg.mode, i))
  {
    var p := plan.groups[k];
    assert PlannedFrom(p, groups[k], cfg.mode, plan.nBlocks, cfg.stintBlocks, cfg.blockMin);
    RawRowInPhase(cfg.mode, i, plan.nBlocks, cfg.stintBlocks);
    DayByPhase(p.rows[i], RawRow(cfg.mode, i, plan.nBlocks, 4, 3, cfg.stintBlocks), PhaseLength(cfg),
               OffPhase(cfg.mode, i), cfg.blockMin);
  }

  lemma ExactDaysAreExactPhases(plan: Plan, cfg: Config, groups: seq<Group>)
    requires Askable(cfg) && Built(plan, cfg, groups) && FourOnThree(groups) && BudgetOk(plan)
    ensures CrewBudget(plan.nBlocks, PhaseLength(cfg), cfg.blockMin)
  {
    hide PhaseBudget, AllTotals;
    assert |plan.groups| == |groups|;
    forall i | 0 <= i < 4 ensures PhaseBudget(plan.nBlocks, PhaseLength(cfg), cfg.blockMin, i) {
      var j := OffPhase(cfg.mode, i);
      DayOfBuilt(plan, cfg, groups, 0, j);
      AllTotalsHas(plan.groups, 0, j);
    }
  }

  lemma ExactPhasesAreExactDays(plan: Plan, cfg: Config, groups: seq<Group>)
    requires Askable(cfg) && Built(plan, cfg, groups) && FourOnThree(groups)
    requires CrewBudget(plan.nBlocks, PhaseLength(cfg), cfg.blockMin)
    ensures BudgetOk(plan)
  {
    hide PhaseBudget, AllTotals;
    DayOfBuilt(plan, cfg, groups, 0, 0);
    AllTotalsHas(plan.groups, 0, 0);
    forall t | t in AllTotals(plan.groups) ensures t == FULL_DAY {
      var k, i := AllTotalsOnly(plan.groups, t);
      assert PlannedFrom(plan.groups[k], groups[k], cfg.mode, plan.nBlocks, cfg.stintBlocks, cfg.blockMin);
      DayOfBuilt(plan, cfg, groups, k, i);
      assert PhaseBudget(plan.nBlocks, PhaseLength(cfg), cfg.blockMin, OffPhase(cfg.mode, i));
    }
  }

  /** Six hours, one hour and one hour for everybody, exactly when whole cycles fill the shift. */
  lemma BudgetIffCyclesFit(plan: Plan, cfg: Config, groups: seq<Group>)
    requires Askable(cfg) && Built(plan, cfg, groups) && FourOnThree(groups)
    ensures BudgetOk(plan) <==>
              plan.nBlocks * cfg.blockMin == SHIFT_MINUTES && plan.nBlocks % (8 * PhaseLength(cfg)) == 0
  {
    hide PhaseBudget, Built, BudgetOk;
    CrewBudgetIff(plan.nBlocks, PhaseLength(cfg), cfg.blockMin);
    if BudgetOk(plan) {
      ExactDaysAreExactPhases(plan, cfg, groups);
    }
    if CrewBudget(plan.nBlocks, PhaseLength(cfg), cfg.blockMin) {
      ExactPhasesAreExactDays(plan, cfg, groups);
    }
  }

  /** Hold: the budget is exact exactly when the block length divides the shift and the blocks are a
      multiple of eight. The second test alone is not enough: 59-minute blocks give eight of them. */
  lemma HoldBudgetIff(plan: Plan, cfg: Config, groups: seq<Group>)
    requires Askable(cfg) && Built(plan, cfg, groups) && FourOnThree(groups) && cfg.mode == Hold
    ensures BudgetOk(plan) <==> SHIFT_MINUTES % cfg.blockMin == 0 && plan.nBlocks % 8 == 0
  {
    BudgetIffCyclesFit(plan, cfg, groups);
    RoundingIsExactIff(cfg.blockMin);
  }

  /** Rotate: exact exactly when the time on a rig divides the hour, whatever the block length. */
  lemma RotateBudgetIff(plan: Plan, cfg: Config, groups: seq<Group>)
    requires Askable(cfg) && Built(plan, cfg, groups) && FourOnThree(groups) && cfg.mode == Rotate
    ensures BudgetOk(plan) <==> Divides(StintMinutes(cfg), 60)
  {
    NextMultiple(cfg.stintBlocks - 1, cfg.blockMin);
    NoSmallerMultiple(0, cfg.stintBlocks - 1, cfg.blockMin);
    BudgetIffCyclesFit(plan, cfg, groups);
    CyclesFitIffStintDividesHour(cfg.stintBlocks, cfg.blockMin);
  }

  lemma EightBlocksOf59MinutesDoNotFit()
    ensures BlocksPerShift(59) == 8 && BlocksPerShift(59) % 8 == 0 && SHIFT_MINUTES % 59 != 0
  {
  }

  // --------------------------------------------------- the whole verdict

  lemma AllAlikeIsOneLength(plan: Plan, inner: bool, len: int)
    requires RowsFit(plan) && plan.groups != [] && plan.groups[0].group.rigs != []
    requires forall k, ri :: 0 <= k < |plan.groups| && 0 <= ri < |plan.groups[k].group.rigs| ==>
               RigAlike(plan, inner, k, ri, len)
    ensures OneLength(plan, inner)
  {
    var m := len * plan.config.blockMin;
    assert RigAlike(plan, inner, 0, 0, len);
    var runs := RunsAudited(Holders(plan.groups[0].rows, 0, plan.nBlocks), inner);
    assert runs[0] in runs && runs[0] == len;
    assert TurnOn(plan, inner, 0, 0, m);
    assert GroupHasTurn(plan, inner, 0, m);
    assert HasTurn(plan, inner, m);
    forall o | HasTurn(plan, inner, o) ensures o == m {
      var k :| 0 <= k < |plan.groups| && GroupHasTurn(plan, inner, k, o);
      var ri :| 0 <= ri < |plan.groups[k].group.rigs| && TurnOn(plan, inner, k, ri, o);
      assert RigAlike(plan, inner, k, ri, len);
    }
  }

  /** Every turn audited on this rig is so many blocks, and there is one. */
  ghost predicate RigAlike(plan: Plan, inner: bool, k: nat, ri: nat, len: int)
    requires RowsFit(plan) && k < |plan.groups|
  {
    var runs := RunsAudited(Holders(plan.groups[k].rows, ri, plan.nBlocks), inner);
    runs != [] && forall run :: run in runs ==> run == len
  }

  lemma HoldRigAlike(plan: Plan, cfg: Config, groups: seq<Group>, k: nat, ri: nat)
    requires Askable(cfg) && Built(plan, cfg, groups) && FourOnThree(groups) && cfg.mode == Hold
    requires RowsFit(plan) && plan.nBlocks >= 8 && k < |groups| && ri < 3
    ensures RigAlike(plan, true, k, ri, 3)
  {
    var holders := Holders(plan.groups[k].rows, ri, plan.nBlocks);
    HoldPlanHolders(plan.groups[k], groups[k], plan.nBlocks, cfg.stintBlocks, cfg.blockMin, ri);
    LongShiftHasInterior(holders, ri, 4);
    InteriorAlike(holders, ri);
  }

  lemma InteriorAlike(holders: seq<int>, r: nat)
    requires HoldHolders(holders, r, 4) && |Spans(holders, 0)| > 2
    ensures var inner := Inner(RunsFiled(holders)); inner != [] && forall run :: run in inner ==> run == 3
  {
    hide HoldHolders;
    var runs := RunsFiled(holders);
    var inner := Inner(runs);
    forall run | run in inner ensures run == 3 {
      var x :| 0 <= x < |inner| && inner[x] == run;
      assert inner[x] == runs[x + 1];
      HoldInteriorTurns(holders, r, 4, x + 1);
    }
  }

  lemma RotateRigAlike(plan: Plan, cfg: Config, groups: seq<Group>, k: nat, ri: nat)
    requires Askable(cfg) && Built(plan, cfg, groups) && FourOnThree(groups) && cfg.mode == Rotate
    requires RowsFit(plan) && plan.nBlocks > 0 && plan.nBlocks % cfg.stintBlocks == 0 && k < |groups| && ri < 3
    ensures RigAlike(plan, false, k, ri, cfg.stintBlocks)
  {
    var holders := Holders(plan.groups[k].rows, ri, plan.nBlocks);
    RotatePlanHolders(plan.groups[k], groups[k], plan.nBlocks, cfg.stintBlocks, cfg.blockMin, ri);
    RotateChangesPerStint(holders, ri, 4, cfg.stintBlocks);
    EveryTurnIsOneStint(holders, cfg.stintBlocks, 0);
    var runs := RunsFiled(holders);
    forall run | run in runs ensures run == cfg.stintBlocks {
      var x :| 0 <= x < |runs| && runs[x] == run;
    }
  }

  /** In hold the verdict is "clean fit" exactly when the day comes out right, and "does not fit"
      otherwise: the soft check on turn lengths never decides. */
  lemma HoldVerdictIsExact(plan: Plan, cfg: Config, groups: seq<Group>, a: Audit)
    requires Askable(cfg) && Built(plan, cfg, groups) && FourOnThree(groups) && cfg.mode == Hold
    ensures RowsFit(plan) && !AuditThrows(plan)
    ensures Audited(a, plan) ==>
              && (a.level == CleanFit <==> SHIFT_MINUTES % cfg.blockMin == 0 && plan.nBlocks % 8 == 0)
              && (a.level == CleanFit <==> BudgetOk(plan)) && a.level != UnevenTurns
  {
    BuiltFits(plan, cfg, groups);
    HoldBudgetIff(plan, cfg, groups);
    BudgetIffCyclesFit(plan, cfg, groups);
    if BudgetOk(plan) {
      assert plan.nBlocks >= 8;
      forall k, ri | 0 <= k < |plan.groups| && 0 <= ri < |plan.groups[k].group.rigs|
        ensures RigAlike(plan, true, k, ri, 3)
      {
        assert PlannedFrom(plan.groups[k], groups[k], cfg.mode, plan.nBlocks, cfg.stintBlocks, cfg.blockMin);
        HoldRigAlike(plan, cfg, groups, k, ri);
      }
      assert PlannedFrom(plan.groups[0], groups[0], cfg.mode, plan.nBlocks, cfg.stintBlocks, cfg.blockMin);
      AllAlikeIsOneLength(plan, true, 3);
    }
  }

  lemma {:induction false} LabelledRunsAreRawRuns(row: seq<Cell>, raw: seq<int>, k: nat)
    requires IsLabelled(row, raw) && k <= |row|
    ensures OffRunsIn(row, k) == RunsStarted(raw, k)
    decreases k
  {
    if k > 0 {
      LabelledRunsAreRawRuns(row, raw, k - 1);
    }
  }

  lemma SameRunsEachPhase(N: nat, S: int, i: int)
    requires S > 0 && N > 0 && N % (8 * S) == 0 && 0 <= i < 4
    ensures ((N - 1) / S - i) / 4 + 1 == 2 * (N / (8 * S))
  {
    var q := N / (8 * S);
    assert N == q * (8 * S) == (8 * q) * S;
    NextMultiple(8 * q - 1, S);
    DivisionIsUnique(N - 1, S, 8 * q - 1, S - 1);
  }

  lemma RotateIsBalanced(plan: Plan, cfg: Config, groups: seq<Group>)
    requires Askable(cfg) && Built(plan, cfg, groups) && FourOnThree(groups) && cfg.mode == Rotate
    requires plan.nBlocks > 0 && plan.nBlocks % (8 * cfg.stintBlocks) == 0
    ensures Balanced(plan)
  {
    var rows, N, S := plan.groups[0].rows, plan.nBlocks, cfg.stintBlocks;
    forall i | 0 <= i < |rows| ensures OffRunsIn(rows[i], |rows[i]|) == 2 * (N / (8 * S)) {
      assert PlannedFrom(plan.groups[0], groups[0], cfg.mode, N, S, cfg.blockMin);
      var raw := RawRow(Rotate, i, N, 4, 3, S);
      RawRowInPhase(Rotate, i, N, S);
      LabelledRunsAreRawRuns(rows[i], raw, N);
      RunsFollowThePhase(raw, S, 4, i, N - 1);
      SameRunsEachPhase(N, S, i);
    }
  }

  lemma WholeCyclesAreWholeStints(N: nat, S: int)
    requires S > 0 && N % (8 * S) == 0
    ensures N % S == 0
  {
    var q := N / (8 * S);
    assert N == q * (8 * S) == (8 * q) * S;
    DivisionIsUnique(N, S, 8 * q, 0);
  }

  /** In rotate the verdict is "clean fit" exactly when the time on a rig divides the hour, and
      "does not fit" otherwise; that one test decides the day, the balance and the turn lengths. */
  lemma RotateVerdictIsExact(plan: Plan, cfg: Config, groups: seq<Group>, a: Audit)
    requires Askable(cfg) && Built(plan, cfg, groups) && FourOnThree(groups) && cfg.mode == Rotate
    ensures RowsFit(plan) && !AuditThrows(plan)
    ensures Audited(a, plan) ==>
              && (a.level == CleanFit <==> Divides(StintMinutes(cfg), 60))
              && (a.level == CleanFit <==> BudgetOk(plan)) && a.level != UnevenTurns
  {
    BuiltFits(plan, cfg, groups);
    RotateBudgetIff(plan, cfg, groups);
    BudgetIffCyclesFit(plan, cfg, groups);
    if BudgetOk(plan) {
      RotateIsBalanced(plan, cfg, groups);
      WholeCyclesAreWholeStints(plan.nBlocks, cfg.stintBlocks);
      forall k, ri | 0 <= k < |plan.groups| && 0 <= ri < |plan.groups[k].group.rigs|
        ensures RigAlike(plan, false, k, ri, cfg.stintBlocks)
      {
        assert PlannedFrom(plan.groups[k], groups[k], cfg.mode, plan.nBlocks, cfg.stintBlocks, cfg.blockMin);
        RotateRigAlike(plan, cfg, groups, k, ri);
      }
      assert PlannedFrom(plan.groups[0], groups[0], cfg.mode, plan.nBlocks, cfg.stintBlocks, cfg.blockMin);
      AllAlikeIsOneLength(plan, false, cfg.stintBlocks);
    }
  }
}
