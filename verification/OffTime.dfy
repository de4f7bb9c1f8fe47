/** Time off: how the off-runs of a row become break and think, what each operator's day adds up
    to, and when the audit's divisibility tests tell the truth about it. */
module OffTime {
  import opened Arithmetic
  import HoldRotation
  import StintRotation

  const OFF := HoldRotation.OFF

  datatype Cell = On(rig: int) | Break | Think

  // --------------------------------------------------------------- labels

  ghost predicate RunStartsAt(row: seq<int>, b: int) {
    0 <= b < |row| && row[b] == OFF && (b == 0 || row[b - 1] != OFF)
  }

  /** How many off-runs start in the first k blocks. */
  ghost function RunsStarted(row: seq<int>, k: nat): nat
    requires k <= |row|
  {
    if k == 0 then 0 else RunsStarted(row, k - 1) + if RunStartsAt(row, k - 1) then 1 else 0
  }

  /** Rest, think, rest, think: the parity of the off-run a block belongs to. */
  ghost function Labelled(row: seq<int>, b: nat): Cell
    requires b < |row|
  {
    if row[b] != OFF then On(row[b])
    else if RunsStarted(row, b + 1) % 2 == 1 then Break
    else Think
  }

  method LabelOffRuns(row: seq<int>) returns (out: seq<Cell>)
    ensures |out| == |row|
    ensures forall b :: 0 <= b < |row| ==> out[b] == Labelled(row, b)
  {
    out := seq(|row|, i requires 0 <= i < |row| => On(row[i]));
    var runIndex, b := 0, 0;
    while b < |row|
      invariant 0 <= b <= |row| == |out|
      invariant runIndex == RunsStarted(row, b)
      invariant 0 < b < |row| && row[b] == OFF ==> row[b - 1] != OFF
      invariant forall c :: 0 <= c < b ==> out[c] == Labelled(row, c)
      invariant forall c :: b <= c < |row| ==> out[c] == On(row[c])
      decreases |row| - b
    {
      if out[b] != On(OFF) {
        b := b + 1;
      } else {
        out, b := LabelOneRun(row, out, runIndex, b);
        runIndex := runIndex + 1;
      }
    }
  }

  /** The inner loop: every block of the off-run that starts at `start` gets one name. */
  method LabelOneRun(row: seq<int>, labelled: seq<Cell>, runIndex: nat, start: nat)
    returns (out: seq<Cell>, b: nat)
    requires start < |row| == |labelled| && RunStartsAt(row, start) && runIndex == RunsStarted(row, start)
    requires forall c :: start <= c < |row| ==> labelled[c] == On(row[c])
    ensures |out| == |row| && start < b <= |row|
    ensures b < |row| ==> row[b] != OFF
    ensures RunsStarted(row, b) == runIndex + 1
    ensures forall c :: 0 <= c < start ==> out[c] == labelled[c]
    ensures forall c :: start <= c < b ==> out[c] == Labelled(row, c)
    ensures forall c :: b <= c < |row| ==> out[c] == On(row[c])
  {
    out, b := labelled, start;
    var name := if runIndex % 2 == 0 then Break else Think;
    while b < |row| && out[b] == On(OFF)
      invariant start <= b <= |row| == |out|
      invariant RunsStarted(row, b) == if b == start then runIndex else runIndex + 1
      invariant b > start ==> row[b - 1] == OFF
      invariant forall c :: 0 <= c < start ==> out[c] == labelled[c]
      invariant forall c :: start <= c < b ==> out[c] == Labelled(row, c)
      invariant forall c :: b <= c < |row| ==> out[c] == On(row[c])
      decreases |row| - b
    {
      assert Labelled(row, b) == name;
      out := out[b := name];
      b := b + 1;
    }
  }

  // ------------------------------------------------- where the labels fall

  ghost predicate BlockInPhase(row: seq<int>, b: nat, S: int, n: int, i: int)
    requires b < |row| && S > 0 && n > 0
  {
    row[b] == OFF <==> (b / S) % n == i
  }

  /** Off for one whole stint in every n, starting with stint i. */
  ghost predicate OffInPhase(row: seq<int>, S: int, n: int, i: int) {
    && S > 0 && n > 1 && 0 <= i < n
    && forall b :: 0 <= b < |row| ==> BlockInPhase(row, b, S, n, i)
  }

  lemma NextBlockNextStint(b: int, S: int)
    requires S > 0 && b > 0
    ensures (b - 1) / S == if b % S == 0 then b / S - 1 else b / S
  {
    if b % S == 0 {
      assert (b / S - 1) * S == (b / S) * S - S;
      DivisionIsUnique(b - 1, S, b / S - 1, S - 1);
    } else {
      DivisionIsUnique(b - 1, S, b / S, b % S - 1);
    }
  }

  lemma NextStintNextCount(s: int, n: int, i: int)
    requires n > 1 && 0 <= i < n
    ensures (s - i) / n == (s - 1 - i) / n + if s % n == i then 1 else 0
  {
    HoldRotation.OffBlockIff(i, s, n);
    if s % n == i {
      var q := (s - i) / n;
      assert (q - 1) * n == q * n - n;
      DivisionIsUnique(s - 1 - i, n, q - 1, n - 1);
    } else {
      HoldRotation.QuotientStandsStill(i, s, n);
    }
  }

  lemma NeighboursDiffer(s: int, n: int)
    requires n > 1
    ensures (s - 1) % n != s % n
  {
    if (s - 1) % n == s % n {
      assert (s / n - (s - 1) / n) * n == 1;
      NoSmallMultiple(s / n - (s - 1) / n, n);
    }
  }

  lemma RunsStep(row: seq<int>, b: nat, s: int, p: int, n: int, i: int)
    requires 0 < b < |row| && n > 1 && 0 <= i < n
    requires row[b] == OFF <==> s % n == i
    requires row[b - 1] == OFF <==> p % n == i
    requires p == s || p == s - 1
    ensures RunsStarted(row, b + 1) == RunsStarted(row, b) + if p != s && s % n == i then 1 else 0
  {
    NeighboursDiffer(s, n);
  }

  lemma {:induction false} RunsFollowThePhase(row: seq<int>, S: int, n: int, i: int, b: nat)
    requires OffInPhase(row, S, n, i) && b < |row|
    ensures RunsStarted(row, b + 1) == (b / S - i) / n + 1
    decreases b
  {
    assert BlockInPhase(row, b, S, n, i);
    if b == 0 {
      FirstPhase(S, n, i);
      assert RunsStarted(row, 1) == RunsStarted(row, 0) + if RunStartsAt(row, 0) then 1 else 0;
    } else {
      RunsFollowThePhase(row, S, n, i, b - 1);
      assert BlockInPhase(row, b - 1, S, n, i);
      LaterPhase(row, b, b / S, S, n, i);
    }
  }

  lemma LaterPhase(row: seq<int>, b: nat, s: int, S: int, n: int, i: int)
    requires 0 < b < |row| && S > 0 && n > 1 && 0 <= i < n && s == b / S
    requires BlockInPhase(row, b, S, n, i) && BlockInPhase(row, b - 1, S, n, i)
    requires RunsStarted(row, b) == ((b - 1) / S - i) / n + 1
    ensures RunsStarted(row, b + 1) == (s - i) / n + 1
  {
    var p := (b - 1) / S;
    NextBlockNextStint(b, S);
    RunsStep(row, b, s, p, n, i);
    if p != s {
      NextStintNextCount(s, n, i);
    }
  }

  lemma FirstPhase(S: int, n: int, i: int)
    requires S > 0 && n > 1 && 0 <= i < n
    ensures (0 / S - i) / n + 1 == if i == 0 then 1 else 0
    ensures (0 / S) % n == 0
  {
    DivisionIsUnique(0, S, 0, 0);
    DivisionIsUnique(0, n, 0, 0);
    if i > 0 {
      DivisionIsUnique(0 - i, n, -1, n - i);
    }
  }

  lemma FirstHalf(s: int, n: int, i: int, q: int, r: int)
    requires n > 1 && 0 <= i < n && s == q * (2 * n) + r && 0 <= r < n
    ensures s % (2 * n) == r && s % n == r && (r == i ==> (s - i) / n == 2 * q)
  {
    DivisionIsUnique(s, 2 * n, q, r);
    assert s == (2 * q) * n + r;
    DivisionIsUnique(s, n, 2 * q, r);
    if r == i {
      DivisionIsUnique(s - i, n, 2 * q, 0);
    }
  }

  lemma SecondHalf(s: int, n: int, i: int, q: int, r: int)
    requires n > 1 && 0 <= i < n && s == q * (2 * n) + n + r && 0 <= r < n
    ensures s % (2 * n) == n + r && s % n == r && (r == i ==> (s - i) / n == 2 * q + 1)
  {
    DivisionIsUnique(s, 2 * n, q, n + r);
    assert (2 * q + 1) * n == (2 * q) * n + n;
    assert s == (2 * q + 1) * n + r;
    DivisionIsUnique(s, n, 2 * q + 1, r);
    if r == i {
      DivisionIsUnique(s - i, n, 2 * q + 1, 0);
    }
  }

  lemma HalvesOfTheDoubleCycle(s: int, n: int, i: int)
    requires n > 1 && 0 <= i < n
    ensures s % (2 * n) == i <==> s % n == i && ((s - i) / n) % 2 == 0
    ensures s % (2 * n) == i + n <==> s % n == i && ((s - i) / n) % 2 == 1
  {
    var q, r := s / (2 * n), s % (2 * n);
    assert s == q * (2 * n) + r;
    if r < n {
      FirstHalf(s, n, i, q, r);
    } else {
      SecondHalf(s, n, i, q, r - n);
    }
  }

  /** Break and think alternate: each is one stint in every 2n, n stints apart. */
  lemma LabelsFollowThePhase(row: seq<int>, S: int, n: int, i: int, b: nat)
    requires OffInPhase(row, S, n, i) && b < |row|
    ensures Labelled(row, b) == Break <==> (b / S) % (2 * n) == i
    ensures Labelled(row, b) == Think <==> (b / S) % (2 * n) == i + n
  {
    var s := b / S;
    RunsFollowThePhase(row, S, n, i, b);
    HalvesOfTheDoubleCycle(s, n, i);
    var k := (s - i) / n;
    assert (k + 1) % 2 == 1 <==> k % 2 == 0;
    assert BlockInPhase(row, b, S, n, i);
  }

  // --------------------------------------------------------------- totals

  datatype Totals = Totals(work: int, brk: int, think: int)

  datatype Kind = Work | Rest | Thought

  function KindOf(c: Cell): Kind {
    match c
    case On(_) => Work
    case Break => Rest
    case Think => Thought
  }

  function CountOf(row: seq<Cell>, kind: Kind, k: nat): nat
    requires k <= |row|
  {
    if k == 0 then 0 else CountOf(row, kind, k - 1) + if KindOf(row[k - 1]) == kind then 1 else 0
  }

  function DayOf(row: seq<Cell>, blockMin: int): Totals {
    Totals(CountOf(row, Work, |row|) * blockMin,
           CountOf(row, Rest, |row|) * blockMin,
           CountOf(row, Thought, |row|) * blockMin)
  }

  method TotalsOf(row: seq<Cell>, blockMin: int) returns (t: Totals)
    ensures t == DayOf(row, blockMin)
  {
    var work, brk, think := 0, 0, 0;
    for b := 0 to |row|
      invariant work == CountOf(row, Work, b) * blockMin
      invariant brk == CountOf(row, Rest, b) * blockMin
      invariant think == CountOf(row, Thought, b) * blockMin
    {
      NextMultiple(CountOf(row, KindOf(row[b]), b), blockMin);
      match row[b] {
        case Break => brk := brk + blockMin;
        case Think => think := think + blockMin;
        case On(_) => work := work + blockMin;
      }
    }
    t := Totals(work, brk, think);
  }

  lemma {:induction false} EveryBlockIsSomething(row: seq<Cell>, k: nat)
    requires k <= |row|
    ensures CountOf(row, Work, k) + CountOf(row, Rest, k) + CountOf(row, Thought, k) == k
  {
    if k > 0 {
      EveryBlockIsSomething(row, k - 1);
    }
  }

  /** The blocks among the first k that are one thing. */
  ghost function BlocksOf(row: seq<Cell>, c: Cell, k: nat): set<int>
    requires k <= |row|
  {
    set b | 0 <= b < k && row[b] == c
  }

  lemma {:induction false} CountIsBlocks(row: seq<Cell>, c: Cell, k: nat)
    requires k <= |row| && !c.On?
    ensures CountOf(row, KindOf(c), k) == |BlocksOf(row, c, k)|
  {
    if k > 0 {
      CountIsBlocks(row, c, k - 1);
      assert BlocksOf(row, c, k) == BlocksOf(row, c, k - 1) + if row[k - 1] == c then {k - 1} else {};
    } else {
      assert BlocksOf(row, c, 0) == {};
    }
  }

  /** A day's break is its break blocks and its thinking its think blocks; the rest of the shift is work. */
  lemma DayCounts(row: seq<Cell>, blockMin: int)
    ensures var t := DayOf(row, blockMin);
            && t.brk == |BlocksOf(row, Break, |row|)| * blockMin && t.think == |BlocksOf(row, Think, |row|)| * blockMin
            && t.work + t.brk + t.think == |row| * blockMin
  {
    CountIsBlocks(row, Break, |row|);
    CountIsBlocks(row, Think, |row|);
    EveryBlockIsSomething(row, |row|);
    var w, b, t := CountOf(row, Work, |row|), |BlocksOf(row, Break, |row|)|, |BlocksOf(row, Think, |row|)|;
    assert (w + b + t) * blockMin == w * blockMin + b * blockMin + t * blockMin;
  }

  function Clamp(x: int, hi: int): int {
    if x < 0 then 0 else if x > hi then hi else x
  }

  /** Blocks among the first N that fall in stint j of every m. */
  function PhaseBlocks(N: int, S: int, m: int, j: int): int
    requires S > 0 && m > 0 && S * m > 0
  {
    (N / (S * m)) * S + Clamp(N % (S * m) - j * S, S)
  }

  /** The stint a block belongs to, within its cycle, is decided by its offset in the cycle. */
  lemma PhaseByOffset(b: int, S: int, m: int, j: int)
    requires S > 0 && m > 0 && S * m > 0 && 0 <= j < m
    ensures (b / S) % m == j <==> j * S <= b % (S * m) < j * S + S
  {
    var P := S * m;
    var Q, t := b / P, b % P;
    var u, v := t / S, t % S;
    assert b == Q * P + t && t == u * S + v;
    assert Q * P == (Q * m) * S;
    assert b == (Q * m + u) * S + v;
    DivisionIsUnique(b, S, Q * m + u, v);
    QuotientBelow(t, S, m);
    DivisionIsUnique(Q * m + u, m, Q, u);
    WithinOneStint(u, v, S, j);
  }

  lemma QuotientBelow(t: int, S: int, m: int)
    requires S > 0 && 0 <= t < S * m
    ensures 0 <= t / S < m
  {
    if t / S >= m {
      assert false;
    }
    if t / S < 0 {
      assert false;
    }
  }

  lemma WithinOneStint(u: int, v: int, S: int, j: int)
    requires S > 0 && 0 <= v < S
    ensures u == j <==> j * S <= u * S + v < j * S + S
  {
    if j * S <= u * S + v < j * S + S {
      assert (u - j) * S == u * S - j * S;
      NoSmallMultiple(u - j, S);
    }
  }

  lemma OneMoreInCycle(t: int, x: int, S: int)
    requires S > 0
    ensures Clamp(t + 1 - x, S) == Clamp(t - x, S) + if x <= t < x + S then 1 else 0
  {
  }

  lemma CycleEndsInLastStint(S: int, m: int, j: int, P: int)
    requires S > 0 && 0 <= j < m && P == S * m
    ensures 0 <= j * S && (if j == m - 1 then j * S == P - S else j * S <= P - 2 * S)
  {
    NextMultiple(m - 1, S);
    NoSmallerMultiple(0, j, S);
    if j < m - 1 {
      NextMultiple(m - 2, S);
      NoSmallerMultiple(j, m - 2, S);
    }
  }

  lemma CycleWraps(P: int, Q: int, S: int, x: int, last: bool)
    requires S > 0 && 0 <= x && (if last then x == P - S else x <= P - 2 * S)
    ensures (Q + 1) * S + Clamp(0 - x, S) == Q * S + Clamp(P - 1 - x, S) + if last then 1 else 0
  {
    NextMultiple(Q, S);
  }

  /** Adding one block adds one exactly to the stint it falls in. */
  lemma OneMoreBlock(b: nat, S: int, m: int, j: int)
    requires S > 0 && m > 0 && S * m > 0 && 0 <= j < m
    ensures PhaseBlocks(b + 1, S, m, j) == PhaseBlocks(b, S, m, j) + if (b / S) % m == j then 1 else 0
  {
    var P := S * m;
    var Q, t, x := b / P, b % P, j * S;
    PhaseByOffset(b, S, m, j);
    NextInCycle(b, P);
    if t + 1 < P {
      OneMoreInCycle(t, x, S);
    } else {
      CycleEndsInLastStint(S, m, j, P);
      CycleWraps(P, Q, S, x, j == m - 1);
    }
  }

  lemma NextInCycle(b: int, P: int)
    requires P > 0
    ensures if b % P + 1 < P then (b + 1) / P == b / P && (b + 1) % P == b % P + 1
            else (b + 1) / P == b / P + 1 && (b + 1) % P == 0
  {
    var Q, t := b / P, b % P;
    if t + 1 < P {
      DivisionIsUnique(b + 1, P, Q, t + 1);
    } else {
      NextMultiple(Q, P);
      DivisionIsUnique(b + 1, P, Q + 1, 0);
    }
  }

  lemma {:induction false} CountInPhase(row: seq<Cell>, kind: Kind, S: int, m: int, j: int, k: nat)
    requires S > 0 && m > 0 && S * m > 0 && 0 <= j < m && k <= |row|
    requires forall b :: 0 <= b < |row| ==> (KindOf(row[b]) == kind <==> (b / S) % m == j)
    ensures CountOf(row, kind, k) == PhaseBlocks(k, S, m, j)
  {
    if k == 0 {
      DivisionIsUnique(0, S * m, 0, 0);
      assert j * S >= 0;
    } else {
      CountInPhase(row, kind, S, m, j, k - 1);
      OneMoreBlock(k - 1, S, m, j);
    }
  }

  // ------------------------------------------------------------ the budget

  const SHIFT_MINUTES := 480

  // The day every operator is promised, in minutes.
  const FULL_DAY := Totals(360, 60, 60)

  /** The cells a raw row becomes. */
  ghost predicate IsLabelled(row: seq<Cell>, raw: seq<int>) {
    |row| == |raw| && forall b :: 0 <= b < |row| ==> row[b] == Labelled(raw, b)
  }

  /** One operator's day, in blocks of one stint of an eight-stint cycle. */
  ghost predicate PhaseBudget(N: int, S: int, blockMin: int, i: int)
    requires S > 0
  {
    var brk, think := PhaseBlocks(N, S, 8, i), PhaseBlocks(N, S, 8, i + 4);
    brk * blockMin == 60 && think * blockMin == 60 && (N - brk - think) * blockMin == 360
  }

  lemma DayByPhase(row: seq<Cell>, raw: seq<int>, S: int, i: int, blockMin: int)
    requires IsLabelled(row, raw) && OffInPhase(raw, S, 4, i)
    ensures DayOf(row, blockMin) == FULL_DAY <==> PhaseBudget(|row|, S, blockMin, i)
  {
    forall b | 0 <= b < |row|
      ensures KindOf(row[b]) == Rest <==> (b / S) % 8 == i
      ensures KindOf(row[b]) == Thought <==> (b / S) % 8 == i + 4
    {
      LabelsFollowThePhase(raw, S, 4, i, b);
    }
    CountInPhase(row, Rest, S, 8, i, |row|);
    CountInPhase(row, Thought, S, 8, i + 4, |row|);
    EveryBlockIsSomething(row, |row|);
  }

  lemma SameBlocks(a: int, b: int, blockMin: int)
    requires blockMin > 0 && a * blockMin == b * blockMin
    ensures a == b
  {
    assert (a - b) * blockMin == 0;
    NoSmallMultiple(a - b, blockMin);
  }

  lemma FirstAndLastPhaseAgree(N: nat, S: int)
    requires S > 0 && PhaseBlocks(N, S, 8, 0) == PhaseBlocks(N, S, 8, 7)
    ensures N % (8 * S) == 0
  {
    var t := N % (S * 8);
    assert Clamp(t, S) == Clamp(t - 7 * S, S);
  }

  lemma DayAddsUp(N: int, brk: int, think: int, blockMin: int)
    requires brk * blockMin == 60 && think * blockMin == 60 && (N - brk - think) * blockMin == 360
    ensures N * blockMin == SHIFT_MINUTES
  {
    assert (N - brk - think) * blockMin == N * blockMin - brk * blockMin - think * blockMin;
  }

  lemma WholeCyclesBudget(N: nat, S: int, blockMin: int, i: int)
    requires S > 0 && 0 <= i < 4 && N * blockMin == SHIFT_MINUTES && N % (8 * S) == 0
    ensures PhaseBudget(N, S, blockMin, i)
  {
    var Q := N / (8 * S);
    var x := Q * S;
    assert S * 8 == 8 * S;
    assert i * S >= 0 && (i + 4) * S >= 0;
    assert PhaseBlocks(N, S, 8, i) == x == PhaseBlocks(N, S, 8, i + 4);
    assert N == 8 * x by {
      assert N == Q * (8 * S);
    }
    assert (8 * x) * blockMin == 8 * (x * blockMin);
    assert (6 * x) * blockMin == 6 * (x * blockMin);
  }

  /** The four operators of a crew, each a stint later than the one before. */
  ghost predicate CrewBudget(N: int, S: int, blockMin: int)
    requires S > 0
  {
    forall i :: 0 <= i < 4 ==> PhaseBudget(N, S, blockMin, i)
  }

  /** All four days are exact together exactly when whole eight-stint cycles fill 480 minutes. */
  lemma CrewBudgetIff(N: nat, S: int, blockMin: int)
    requires S > 0 && blockMin > 0
    ensures CrewBudget(N, S, blockMin) <==> N * blockMin == SHIFT_MINUTES && N % (8 * S) == 0
  {
    if CrewBudget(N, S, blockMin) {
      assert PhaseBudget(N, S, blockMin, 0) && PhaseBudget(N, S, blockMin, 3);
      DayAddsUp(N, PhaseBlocks(N, S, 8, 0), PhaseBlocks(N, S, 8, 4), blockMin);
      SameBlocks(PhaseBlocks(N, S, 8, 0), PhaseBlocks(N, S, 8, 7), blockMin);
      FirstAndLastPhaseAgree(N, S);
    }
    if N * blockMin == SHIFT_MINUTES && N % (8 * S) == 0 {
      forall i | 0 <= i < 4 ensures PhaseBudget(N, S, blockMin, i) {
        WholeCyclesBudget(N, S, blockMin, i);
      }
    }
  }

  // -------------------------------------------------- what the audit tests

  /** Blocks in a shift: 480 minutes over the block length, rounded half up. */
  function BlocksPerShift(blockMin: int): nat
    requires blockMin > 0
  {
    (2 * SHIFT_MINUTES + blockMin) / (2 * blockMin)
  }

  /** The blocks come as near to the shift as whole blocks can, and of two as near, past it. */
  lemma BlocksAreNearest(blockMin: int)
    requires blockMin > 0
    ensures -blockMin < 2 * (BlocksPerShift(blockMin) * blockMin - SHIFT_MINUTES) <= blockMin
  {
    var N := BlocksPerShift(blockMin);
    assert N * (2 * blockMin) == 2 * (N * blockMin);
  }

  lemma RoundingIsExactIff(blockMin: int)
    requires blockMin > 0
    ensures BlocksPerShift(blockMin) * blockMin == SHIFT_MINUTES <==> SHIFT_MINUTES % blockMin == 0
  {
    var N := BlocksPerShift(blockMin);
    if N * blockMin == SHIFT_MINUTES {
      DivisionIsUnique(SHIFT_MINUTES, blockMin, N, 0);
    }
    if SHIFT_MINUTES % blockMin == 0 {
      var q := SHIFT_MINUTES / blockMin;
      assert 2 * SHIFT_MINUTES + blockMin == q * (2 * blockMin) + blockMin by {
        assert q * (2 * blockMin) == 2 * (q * blockMin);
      }
      DivisionIsUnique(2 * SHIFT_MINUTES + blockMin, 2 * blockMin, q, blockMin);
    }
  }

  lemma CyclesInMinutes(q: int, S: int, blockMin: int)
    ensures (q * (8 * S)) * blockMin == 8 * (q * (S * blockMin))
  {
    calc {
      (q * (8 * S)) * blockMin;
      ((8 * q) * S) * blockMin;
      (8 * q) * (S * blockMin);
      8 * (q * (S * blockMin));
    }
  }

  lemma CyclesFitThenHourDivides(S: int, blockMin: int, N: int, sMin: int)
    requires S > 0 && blockMin > 0 && sMin == S * blockMin && sMin > 0
    requires N * blockMin == SHIFT_MINUTES && N % (8 * S) == 0
    ensures 60 % sMin == 0
  {
    var q := N / (8 * S);
    CyclesInMinutes(q, S, blockMin);
    assert N == q * (8 * S);
    DivisionIsUnique(60, sMin, q, 0);
  }

  lemma HourDividesThenCyclesFit(S: int, blockMin: int, N: int, sMin: int)
    requires S > 0 && blockMin > 0 && sMin == S * blockMin && sMin > 0
    requires 60 % sMin == 0 && N == BlocksPerShift(blockMin)
    ensures N * blockMin == SHIFT_MINUTES && N % (8 * S) == 0
  {
    var q := 60 / sMin;
    var n := q * (8 * S);
    CyclesInMinutes(q, S, blockMin);
    assert n * blockMin == SHIFT_MINUTES;
    DivisionIsUnique(SHIFT_MINUTES, blockMin, n, 0);
    RoundingIsExactIff(blockMin);
    SameBlocks(N, n, blockMin);
    DivisionIsUnique(N, 8 * S, q, 0);
  }

  /** "Turn times eight divides 480" and "the turn divides 60" are the same test, and the same as
      whole cycles filling the shift. */
  lemma CyclesFitIffStintDividesHour(S: int, blockMin: int)
    requires S > 0 && blockMin > 0 && S * blockMin > 0
    ensures var N := BlocksPerShift(blockMin);
            N * blockMin == SHIFT_MINUTES && N % (8 * S) == 0 <==> 60 % (S * blockMin) == 0
  {
    var N := BlocksPerShift(blockMin);
    if N * blockMin == SHIFT_MINUTES && N % (8 * S) == 0 {
      CyclesFitThenHourDivides(S, blockMin, N, S * blockMin);
    }
    if 60 % (S * blockMin) == 0 {
      HourDividesThenCyclesFit(S, blockMin, N, S * blockMin);
    }
  }
}
