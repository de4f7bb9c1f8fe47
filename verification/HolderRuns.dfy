/** The turns on one rig: the maximal runs of one holder over the blocks of a shift. */
module HolderRuns {
  import opened Arithmetic
  import opened Options

  datatype Span = Span(first: nat, last: nat)

  /** The last block of the run that block b belongs to, read forwards from b. */
  function RunEnd(holders: seq<int>, b: nat): (e: nat)
    requires b < |holders|
    ensures b <= e < |holders|
    ensures forall c :: b <= c <= e ==> holders[c] == holders[b]
    ensures e + 1 < |holders| ==> holders[e + 1] != holders[b]
    decreases |holders| - b
  {
    if b + 1 < |holders| && holders[b + 1] == holders[b] then RunEnd(holders, b + 1) else b
  }

  function Spans(holders: seq<int>, b: nat): seq<Span>
    requires b <= |holders|
    decreases |holders| - b
  {
    if b == |holders| then []
    else [Span(b, RunEnd(holders, b))] + Spans(holders, RunEnd(holders, b) + 1)
  }

  ghost predicate SpanOk(holders: seq<int>, s: Span) {
    && s.first <= s.last < |holders|
    && (forall c :: s.first <= c <= s.last ==> holders[c] == holders[s.first])
    && (s.last + 1 < |holders| ==> holders[s.last + 1] != holders[s.first])
  }

  /** The spans cover the blocks from b on, in order, without gap or overlap; each is one holder's
      and none could be longer. */
  ghost predicate Tiles(spans: seq<Span>, holders: seq<int>, b: nat) {
    && b <= |holders|
    && (spans == [] <==> b == |holders|)
    && (spans != [] ==> spans[0].first == b && spans[|spans| - 1].last + 1 == |holders|)
    && (forall k :: 0 <= k < |spans| ==> SpanOk(holders, spans[k]))
    && (forall k :: 0 < k < |spans| ==> spans[k].first == spans[k - 1].last + 1)
  }

  lemma TilesGrowsLeft(head: Span, rest: seq<Span>, holders: seq<int>)
    requires SpanOk(holders, head) && Tiles(rest, holders, head.last + 1)
    ensures Tiles([head] + rest, holders, head.first)
  {
    var all := [head] + rest;
    forall k | 0 < k < |all|
      ensures SpanOk(holders, all[k]) && all[k].first == all[k - 1].last + 1
    {
      assert all[k] == rest[k - 1];
      if k > 1 {
        assert all[k - 1] == rest[k - 2];
      }
    }
    assert all[|all| - 1] == if rest == [] then head else rest[|rest| - 1];
  }

  lemma {:induction false} SpansTile(holders: seq<int>, b: nat)
    requires b <= |holders|
    ensures Tiles(Spans(holders, b), holders, b)
    decreases |holders| - b
  {
    if b < |holders| {
      var e := RunEnd(holders, b);
      var head, rest := Span(b, e), Spans(holders, e + 1);
      assert Spans(holders, b) == [head] + rest;
      SpansTile(holders, head.last + 1);
      TilesGrowsLeft(head, rest, holders);
    }
  }

  /** Maximal on the left as well: the block before a span belongs to somebody else. */
  lemma SpanStartsFresh(spans: seq<Span>, holders: seq<int>, k: nat)
    requires Tiles(spans, holders, 0) && k < |spans|
    ensures SpanOk(holders, spans[k])
    ensures spans[k].first == 0 <==> k == 0
    ensures spans[k].first > 0 ==> holders[spans[k].first - 1] != holders[spans[k].first]
    ensures spans[k].last + 1 == |holders| <==> k == |spans| - 1
  {
    SpansAscend(spans, holders, 0, k);
    SpansAscend(spans, holders, k, |spans| - 1);
    if k > 0 {
      assert SpanOk(holders, spans[k - 1]);
    }
  }

  /** The same for the spans of a whole shift. */
  lemma SpanIsMaximal(holders: seq<int>, k: nat)
    requires k < |Spans(holders, 0)|
    ensures var s := Spans(holders, 0)[k];
            && SpanOk(holders, s)
            && (s.first == 0 <==> k == 0)
            && (s.first > 0 ==> holders[s.first - 1] != holders[s.first])
            && (s.last + 1 == |holders| <==> k == |Spans(holders, 0)| - 1)
  {
    SpansTile(holders, 0);
    SpanStartsFresh(Spans(holders, 0), holders, k);
  }

  lemma {:induction false} SpansAscend(spans: seq<Span>, holders: seq<int>, j: nat, k: nat)
    requires Tiles(spans, holders, 0) && j <= k < |spans|
    ensures j < k ==> spans[j].last < spans[k].first
    ensures spans[j].last <= spans[k].last
    ensures SpanOk(holders, spans[j]) && SpanOk(holders, spans[k])
    decreases k - j
  {
    if j < k {
      SpansAscend(spans, holders, j, k - 1);
      assert spans[k].first == spans[k - 1].last + 1;
    }
  }

  /** Every block is in exactly one span. */
  lemma {:induction false} SpanOfBlock(spans: seq<Span>, holders: seq<int>, c: nat, k: nat) returns (at: nat)
    requires Tiles(spans, holders, 0) && c < |holders| && k < |spans| && spans[k].first <= c
    ensures at < |spans| && spans[at].first <= c <= spans[at].last
    decreases |spans| - k
  {
    assert SpanOk(holders, spans[k]);
    if c <= spans[k].last {
      at := k;
    } else {
      SpanStartsFresh(spans, holders, k);
      assert k + 1 < |spans| && spans[k + 1].first == spans[k].last + 1;
      at := SpanOfBlock(spans, holders, c, k + 1);
    }
  }

  // -------------------------------------------------------- run lengths

  function Lengths(spans: seq<Span>): (r: seq<int>)
    ensures |r| == |spans|
  {
    if spans == [] then [] else [spans[0].last - spans[0].first + 1] + Lengths(spans[1..])
  }

  lemma {:induction false} LengthAt(spans: seq<Span>, k: nat)
    requires k < |spans|
    ensures Lengths(spans)[k] == spans[k].last - spans[k].first + 1
  {
    if k > 0 {
      LengthAt(spans[1..], k - 1);
    }
  }

  lemma RunEndIs(holders: seq<int>, b: nat, e: nat)
    requires b <= e < |holders|
    requires forall c :: b <= c <= e ==> holders[c] == holders[b]
    requires e + 1 < |holders| ==> holders[e + 1] != holders[b]
    ensures RunEnd(holders, b) == e
  {
    var f := RunEnd(holders, b);
    if f < e {
      assert false;
    }
    if e < f {
      assert false;
    }
  }

  lemma LengthsOfCons(head: Span, rest: seq<Span>)
    ensures Lengths([head] + rest) == [head.last - head.first + 1] + Lengths(rest)
  {
    assert ([head] + rest)[1..] == rest;
  }

  lemma LengthsFrom(holders: seq<int>, b: nat, e: nat)
    requires b <= e < |holders| && RunEnd(holders, b) == e
    ensures Lengths(Spans(holders, b)) == [e - b + 1] + Lengths(Spans(holders, e + 1))
  {
    hide Lengths;
    LengthsOfCons(Span(b, e), Spans(holders, e + 1));
  }

  /** The scan so far: these runs are filed, and the current one began `run` blocks ago. */
  ghost predicate Scanned(holders: seq<int>, b: nat, runs: seq<int>, run: int) {
    && 1 <= run <= b <= |holders|
    && (forall c :: b - run <= c < b ==> holders[c] == holders[b - 1])
    && Lengths(Spans(holders, 0)) == runs + Lengths(Spans(holders, b - run))
  }

  lemma RunFiled(holders: seq<int>, b: nat, runs: seq<int>, run: int)
    requires Scanned(holders, b, runs, run) && (b < |holders| ==> holders[b] != holders[b - 1])
    ensures Lengths(Spans(holders, 0)) == runs + [run] + Lengths(Spans(holders, b))
  {
    hide Lengths, Spans;
    RunEndIs(holders, b - run, b - 1);
    LengthsFrom(holders, b - run, b - 1);
    var rest := Lengths(Spans(holders, b));
    assert runs + ([run] + rest) == runs + [run] + rest;
  }

  /** The audit's scan: count while the holder stays the same, file the count when it changes, and
      the last one at the end. With no blocks it files a single zero. */
  method RunLengths(holders: seq<int>) returns (runs: seq<int>)
    ensures runs == if |holders| == 0 then [0] else Lengths(Spans(holders, 0))
  {
    runs := [];
    var prev: Option<int>, run := None, 0;
    for b := 0 to |holders|
      invariant b == 0 ==> runs == [] && prev == None && run == 0
      invariant b > 0 ==> prev == Some(holders[b - 1]) && Scanned(holders, b, runs, run)
    {
      var who := holders[b];
      if prev == Some(who) {
        run := run + 1;
      } else {
        if prev != None {
          RunFiled(holders, b, runs, run);
          runs := runs + [run];
        }
        prev, run := Some(who), 1;
      }
    }
    if |holders| > 0 {
      RunFiled(holders, |holders|, runs, run);
    }
    runs := runs + [run];
  }

  // ------------------------------------------- what the rotations produce

  ghost predicate PerStint(holders: seq<int>, S: nat) {
    && S > 0 && |holders| % S == 0
    && (forall b :: 0 < b < |holders| ==> (b % S == 0 <==> holders[b] != holders[b - 1]))
  }

  lemma NoMultipleInside(b: nat, S: nat, c: int)
    requires S > 0 && b % S == 0 && b < c < b + S
    ensures c % S != 0
  {
    DivisionIsUnique(c, S, b / S, c - b);
  }

  lemma {:induction false} StintRunsOn(holders: seq<int>, S: nat, b: nat, c: nat)
    requires PerStint(holders, S) && b % S == 0 && b <= c < b + S && c < |holders|
    ensures holders[c] == holders[b]
    decreases c
  {
    if c > b {
      NoMultipleInside(b, S, c);
      StintRunsOn(holders, S, b, c - 1);
    }
  }

  lemma AtLeastOneStint(b: nat, S: nat, N: nat)
    requires S > 0 && b % S == 0 && N % S == 0 && b < N
    ensures b + S <= N && (b + S) % S == 0
  {
    var q := b / S;
    NextMultiple(q, S);
    DivisionIsUnique(b + S, S, q + 1, 0);
    if b + S > N {
      NoMultipleInside(b, S, N);
    }
  }

  /** When hands change exactly on the stint boundaries, every turn is one stint. */
  lemma {:induction false} EveryTurnIsOneStint(holders: seq<int>, S: nat, b: nat)
    requires PerStint(holders, S) && b <= |holders| && b % S == 0
    ensures forall k :: 0 <= k < |Spans(holders, b)| ==> Lengths(Spans(holders, b))[k] == S
    decreases |holders| - b
  {
    if b < |holders| {
      AtLeastOneStint(b, S, |holders|);
      forall c | b <= c <= b + S - 1 ensures holders[c] == holders[b] {
        StintRunsOn(holders, S, b, c);
      }
      if b + S < |holders| {
        StintRunsOn(holders, S, b, b + S - 1);
      }
      RunEndIs(holders, b, b + S - 1);
      EveryTurnIsOneStint(holders, S, b + S);
      LengthsFrom(holders, b, b + S - 1);
    }
  }
}
