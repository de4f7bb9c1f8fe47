/** The built plan: what the desk draws, who holds a rig in a block, and the audit of the whole. */
module Plans {
  import opened Arithmetic
  import opened HolderRuns
  import opened OffTime
  import opened Options
  import HoldRotation
  import StintRotation

  const HOLD_STINT := 3

  datatype Mode = Hold | Rotate

  // A roster entry; the person id, when there is one, changes nothing about the rows.
  datatype Operator = Operator(name: Option<string>, personId: Option<string>)

  datatype Group = Group(key: string, task: string, rigs: seq<string>, ops: seq<Operator>)

  datatype Shift = Shift(name: string, start: nat)

  datatype Config = Config(mode: Mode, blockMin: int, stintBlocks: nat, shift: Shift, date: string, tz: string)

  datatype PlannedGroup = PlannedGroup(group: Group, rows: seq<seq<Cell>>, totals: seq<Totals>)

  datatype Plan = Plan(config: Config, nBlocks: nat, groups: seq<PlannedGroup>)

  function StintBlocksFor(cfg: Config): nat {
    if cfg.mode == Hold then HOLD_STINT else cfg.stintBlocks
  }

  function StintMinutes(cfg: Config): int {
    StintBlocksFor(cfg) * cfg.blockMin
  }

  /** What the desk may ask for: positive lengths. */
  predicate Askable(cfg: Config) {
    cfg.blockMin > 0 && cfg.stintBlocks > 0
  }

  /** One operator's row before it is labelled, in either rotation. */
  ghost function RawRow(mode: Mode, i: nat, nBlocks: nat, nOps: nat, nRigs: nat, stintBlocks: nat): seq<int>
    requires i < nOps && (mode == Rotate ==> stintBlocks > 0)
  {
    seq(nBlocks, b requires b >= 0 =>
      if mode == Hold then HoldRotation.SheetCell(i, b, nOps, nRigs)
      else StintRotation.RotateCell(i, b, nOps, nRigs, stintBlocks))
  }

  ghost predicate PlannedFrom(p: PlannedGroup, g: Group, mode: Mode, nBlocks: nat, stintBlocks: nat, blockMin: int)
    requires mode == Rotate ==> stintBlocks > 0
  {
    && p.group == g && |p.rows| == |g.ops| == |p.totals|
    && forall i :: 0 <= i < |p.rows| ==>
         && IsLabelled(p.rows[i], RawRow(mode, i, nBlocks, |g.ops|, |g.rigs|, stintBlocks))
         && p.totals[i] == DayOf(p.rows[i], blockMin)
  }

  ghost predicate Built(plan: Plan, cfg: Config, groups: seq<Group>)
    requires Askable(cfg)
  {
    && plan.config == cfg && plan.nBlocks == BlocksPerShift(cfg.blockMin)
    && |plan.groups| == |groups|
    && forall k :: 0 <= k < |groups| ==>
         PlannedFrom(plan.groups[k], groups[k], cfg.mode, plan.nBlocks, cfg.stintBlocks, cfg.blockMin)
  }

  method PlanGroup(g: Group, mode: Mode, nBlocks: nat, stintBlocks: nat, blockMin: int) returns (p: PlannedGroup)
    requires mode == Rotate ==> stintBlocks > 0
    ensures PlannedFrom(p, g, mode, nBlocks, stintBlocks, blockMin)
  {
    var nOps, nRigs := |g.ops|, |g.rigs|;
    var raw: array2<int>;
    if mode == Rotate {
      raw := StintRotation.PlanRotate(nBlocks, nOps, nRigs, stintBlocks);
    } else {
      raw := HoldRotation.PlanHold(nBlocks, nOps, nRigs);
    }
    var rows: seq<seq<Cell>>, totals: seq<Totals> := [], [];
    for i := 0 to nOps
      invariant forall k, b :: 0 <= k < nOps && 0 <= b < nBlocks ==>
                  raw[k, b] == RawRow(mode, k, nBlocks, nOps, nRigs, stintBlocks)[b]
      invariant |rows| == |totals| == i
      invariant forall k :: 0 <= k < i ==>
                  && IsLabelled(rows[k], RawRow(mode, k, nBlocks, nOps, nRigs, stintBlocks))
                  && totals[k] == DayOf(rows[k], blockMin)
    {
      var row := seq(nBlocks, b requires 0 <= b < nBlocks reads raw => raw[i, b]);
      forall b | 0 <= b < nBlocks
        ensures row[b] == RawRow(mode, i, nBlocks, nOps, nRigs, stintBlocks)[b]
      {
        assert row[b] == raw[i, b];
      }
      assert row == RawRow(mode, i, nBlocks, nOps, nRigs, stintBlocks);
      var labelled := LabelOffRuns(row);
      var t := TotalsOf(labelled, blockMin);
      rows, totals := rows + [labelled], totals + [t];
    }
    p := PlannedGroup(g, rows, totals);
  }

  method BuildPlan(cfg: Config, groups: seq<Group>) returns (plan: Plan)
    requires Askable(cfg)
    ensures Built(plan, cfg, groups)
  {
    var nBlocks := BlocksPerShift(cfg.blockMin);
    var planned: seq<PlannedGroup> := [];
    for k := 0 to |groups|
      invariant |planned| == k
      invariant forall j :: 0 <= j < k ==>
                  PlannedFrom(planned[j], groups[j], cfg.mode, nBlocks, cfg.stintBlocks, cfg.blockMin)
    {
      var p := PlanGroup(groups[k], cfg.mode, nBlocks, cfg.stintBlocks, cfg.blockMin);
      planned := planned + [p];
    }
    plan := Plan(cfg, nBlocks, planned);
  }

  // ------------------------------------------------------------- holders

  /** The first operator whose row says this rig in this block, or -1. */
  function HolderFrom(rows: seq<seq<Cell>>, r: int, b: nat, i: nat): (who: int)
    requires i <= |rows| && forall k :: 0 <= k < |rows| ==> b < |rows[k]|
    ensures who == -1 || (i <= who < |rows| && rows[who][b] == On(r))
    ensures who == -1 ==> forall k :: i <= k < |rows| ==> rows[k][b] != On(r)
    decreases |rows| - i
  {
    if i == |rows| then -1
    else if rows[i][b] == On(r) then i
    else HolderFrom(rows, r, b, i + 1)
  }

  ghost predicate Rectangular(rows: seq<seq<Cell>>, nBlocks: nat) {
    forall k :: 0 <= k < |rows| ==> |rows[k]| == nBlocks
  }

  function HolderAt(rows: seq<seq<Cell>>, r: int, b: nat): int
    requires forall k :: 0 <= k < |rows| ==> b < |rows[k]|
  {
    HolderFrom(rows, r, b, 0)
  }

  function Holders(rows: seq<seq<Cell>>, r: int, nBlocks: nat): seq<int>
    requires Rectangular(rows, nBlocks)
  {
    seq(nBlocks, b requires 0 <= b < nBlocks => HolderAt(rows, r, b))
  }

  lemma PlannedIsRectangular(p: PlannedGroup, g: Group, mode: Mode, nBlocks: nat, stintBlocks: nat, blockMin: int)
    requires mode == Rotate ==> stintBlocks > 0
    requires PlannedFrom(p, g, mode, nBlocks, stintBlocks, blockMin)
    ensures Rectangular(p.rows, nBlocks)
  {
  }

  ghost predicate RowsFit(plan: Plan) {
    forall k :: 0 <= k < |plan.groups| ==> Rectangular(plan.groups[k].rows, plan.nBlocks)
  }

  lemma BuiltFits(plan: Plan, cfg: Config, groups: seq<Group>)
    requires Askable(cfg) && Built(plan, cfg, groups)
    ensures RowsFit(plan)
    ensures forall k :: 0 <= k < |groups| ==>
              plan.groups[k].group == groups[k] && |plan.groups[k].rows| == |groups[k].ops|
  {
    forall k | 0 <= k < |plan.groups|
      ensures Rectangular(plan.groups[k].rows, plan.nBlocks)
      ensures plan.groups[k].group == groups[k] && |plan.groups[k].rows| == |groups[k].ops|
    {
      assert PlannedFrom(plan.groups[k], groups[k], cfg.mode, plan.nBlocks, cfg.stintBlocks, cfg.blockMin);
      PlannedIsRectangular(plan.groups[k], groups[k], cfg.mode, plan.nBlocks, cfg.stintBlocks, cfg.blockMin);
    }
  }

  lemma CellOfPlan(p: PlannedGroup, g: Group, mode: Mode, nBlocks: nat, stintBlocks: nat, blockMin: int, i: nat,
                   b: nat, r: nat)
    requires mode == Rotate ==> stintBlocks > 0
    requires PlannedFrom(p, g, mode, nBlocks, stintBlocks, blockMin) && i < |g.ops| && b < nBlocks
    ensures b < |p.rows[i]|
    ensures p.rows[i][b] == On(r) <==> RawRow(mode, i, nBlocks, |g.ops|, |g.rigs|, stintBlocks)[b] == r
  {
    assert IsLabelled(p.rows[i], RawRow(mode, i, nBlocks, |g.ops|, |g.rigs|, stintBlocks));
  }
}
