/** What the drain's runs add up to: nothing is released unmatched, a crash changes no outcome, and
    everything that can drain does, within a number of runs. */
module VideoProgress {
  import opened Options
  import opened VideoDrain
  import opened VideoRows

  // ------------------------------------------------- what a pass comes to

  ghost predicate Took(sh: Shelf, claim: seq<nat>, key: nat) {
    key in sh.spool && exists k :: 0 <= k < |claim| && claim[k] < |sh.rows| && sh.rows[claim[k]].key == Some(key)
  }

  ghost predicate CopyCame(sh: Shelf, claim: seq<nat>, told: bool, now: int, t: Shelf) {
    && |t.rows| == |sh.rows| && t.spool == sh.spool
    && (forall i :: 0 <= i < |sh.rows| ==>
          t.rows[i] == if i in claim then CopiedRow(sh.rows[i], sh.spool, told, now) else sh.rows[i])
    && (forall key ::
          Holding(t.archive, key) == if Took(sh, claim, key) then Holding(sh.spool, key) else Holding(sh.archive, key))
  }

  /** Every row of a claim is settled by itself: which rows a pass archives, and what the archive then
      holds, do not depend on the order of the claim. */
  lemma {:induction false} CopyComesTo(sh: Shelf, claim: seq<nat>, told: bool, now: int)
    requires (forall k :: 0 <= k < |claim| ==> claim[k] < |sh.rows|) && Once(claim)
    ensures CopyCame(sh, claim, told, now, Passed(ToCopy, sh, claim, told, now))
  {
    hide ArchiveMatches, Head;
    if claim != [] {
      var init, last := claim[..|claim| - 1], claim[|claim| - 1];
      assert claim == init + [last];
      CopyComesTo(sh, init, told, now);
      var mid := Passed(ToCopy, sh, init, told, now);
      assert last !in init;
      TookGrows(sh, init, last);
      CopyOneCame(sh, init, last, told, now, mid);
    }
  }

  lemma TookGrows(sh: Shelf, init: seq<nat>, last: nat)
    requires last < |sh.rows|
    ensures forall key :: Took(sh, init + [last], key) <==>
                            Took(sh, init, key) || (key in sh.spool && sh.rows[last].key == Some(key))
  {
    var claim := init + [last];
    forall key
      ensures Took(sh, claim, key) <==> Took(sh, init, key) || (key in sh.spool && sh.rows[last].key == Some(key))
    {
      if Took(sh, init, key) {
        var k :| 0 <= k < |init| && init[k] < |sh.rows| && sh.rows[init[k]].key == Some(key);
        assert claim[k] == init[k];
      }
      assert claim[|init|] == last;
    }
  }

  lemma CopyOneCame(sh: Shelf, init: seq<nat>, last: nat, told: bool, now: int, mid: Shelf)
    requires last < |sh.rows| && last !in init && CopyCame(sh, init, told, now, mid)
    ensures CopyCame(sh, init + [last], told, now, CopyOne(mid, last, told, now))
  {
    hide Took, ArchiveMatches, Head, CopiedRow;
    TookGrows(sh, init, last);
    assert CopiedRow(mid.rows[last], mid.spool, told, now) == CopiedRow(sh.rows[last], sh.spool, told, now);
    if mid.rows[last].key == None || mid.rows[last].key.value !in mid.spool {
      NotCopied(mid.rows[last], mid.spool, told, now);
    }
  }

  lemma NotCopied(row: Row, spool: map<nat, Content>, told: bool, now: int)
    requires row.key == None || row.key.value !in spool
    ensures CopiedRow(row, spool, told, now) == row
  {
  }

  ghost predicate Gives(sh: Shelf, i: nat, told: bool, now: int, key: nat)
    requires i < |sh.rows|
  {
    sh.rows[i].key == Some(key) && FreedRow(sh.rows[i], sh.archive, told, now) != sh.rows[i]
  }

  ghost predicate Gave(sh: Shelf, claim: seq<nat>, told: bool, now: int, key: nat) {
    exists k :: 0 <= k < |claim| && claim[k] < |sh.rows| && Gives(sh, claim[k], told, now, key)
  }

  ghost predicate FreeCame(sh: Shelf, claim: seq<nat>, told: bool, now: int, t: Shelf) {
    && |t.rows| == |sh.rows| && t.archive == sh.archive
    && (forall i :: 0 <= i < |sh.rows| ==>
          t.rows[i] == if i in claim then FreedRow(sh.rows[i], sh.archive, told, now) else sh.rows[i])
    && (forall key :: Holding(t.spool, key) == if Gave(sh, claim, told, now, key) then None else Holding(sh.spool, key))
  }

  lemma {:induction false} FreeComesTo(sh: Shelf, claim: seq<nat>, told: bool, now: int)
    requires (forall k :: 0 <= k < |claim| ==> claim[k] < |sh.rows|) && Once(claim)
    ensures FreeCame(sh, claim, told, now, Passed(ToFree, sh, claim, told, now))
  {
    hide ArchiveMatches, Head, FreedRow;
    if claim != [] {
      var init, last := claim[..|claim| - 1], claim[|claim| - 1];
      assert claim == init + [last];
      FreeComesTo(sh, init, told, now);
      assert last !in init;
      FreeOneCame(sh, init, last, told, now, Passed(ToFree, sh, init, told, now));
    }
  }

  lemma GaveGrows(sh: Shelf, init: seq<nat>, last: nat, told: bool, now: int, key: nat)
    requires last < |sh.rows|
    ensures Gave(sh, init + [last], told, now, key) <==>
              Gave(sh, init, told, now, key) || Gives(sh, last, told, now, key)
  {
    hide Gives;
    var claim := init + [last];
    if Gave(sh, init, told, now, key) {
      var k :| 0 <= k < |init| && init[k] < |sh.rows| && Gives(sh, init[k], told, now, key);
      assert claim[k] == init[k];
    }
    assert claim[|init|] == last;
  }

  lemma FreeOneCame(sh: Shelf, init: seq<nat>, last: nat, told: bool, now: int, mid: Shelf)
    requires last < |sh.rows| && last !in init && FreeCame(sh, init, told, now, mid)
    ensures FreeCame(sh, init + [last], told, now, FreeOne(mid, last, told, now))
  {
    hide Gave, FreedRow;
    assert mid.rows[last] == sh.rows[last];
    var t := FreeOne(mid, last, told, now);
    forall key
      ensures Holding(t.spool, key) == if Gave(sh, init + [last], told, now, key) then None else Holding(sh.spool, key)
    {
      GaveGrows(sh, init, last, told, now, key);
    }
  }

  // ------------------------------------------------------------- no loss

  lemma GivenIsMatched(sh: Shelf, claim: seq<nat>, told: bool, now: int, key: nat) returns (i: nat)
    requires Gave(sh, claim, told, now, key)
    ensures i < |sh.rows| && sh.rows[i].key == Some(key)
    ensures ArchiveMatches(sh.rows[i], Head(Holding(sh.archive, key), told))
  {
    hide Head, ArchiveMatches;
    var k :| 0 <= k < |claim| && claim[k] < |sh.rows| && Gives(sh, claim[k], told, now, key);
    i := claim[k];
  }

  /** A key leaves the spool only when a row names it and the archive holds what that row describes. */
  lemma ReleasedOnlyWhenMatched(sh: Shelf, limit: nat, told: bool, now: int, key: nat)
    requires key in sh.spool && key !in Run(sh, limit, told, now).spool
    ensures exists i :: 0 <= i < |sh.rows| && sh.rows[i].key == Some(key)
              && ArchiveMatches(sh.rows[i], Head(Holding(Run(sh, limit, told, now).archive, key), told))
  {
    hide Claim, Head, ArchiveMatches, FreedRow, Gave, Took;
    var claim := Claim(sh.rows, ToCopy, limit);
    ClaimIsFair(sh.rows, ToCopy, limit);
    CopyComesTo(sh, claim, told, now);
    var copied := Passed(ToCopy, sh, claim, told, now);
    var second := Claim(copied.rows, ToFree, limit);
    ClaimIsFair(copied.rows, ToFree, limit);
    FreeComesTo(copied, second, told, now);
    assert Holding(Run(sh, limit, told, now).spool, key) == None;
    assert Gave(copied, second, told, now, key);
    var i := GivenIsMatched(copied, second, told, now, key);
    SameDescription(sh.rows[i], copied.rows[i], Head(Holding(copied.archive, key), told));
  }

  lemma SameDescription(a: Row, b: Row, landed: Option<Stored>)
    requires a.bytes == b.bytes && a.sha256 == b.sha256
    ensures ArchiveMatches(a, landed) <==> ArchiveMatches(b, landed)
  {
  }

  // ------------------------------------------------------- crash and again

  lemma SameHoldings(a: map<nat, Content>, b: map<nat, Content>)
    requires forall key :: Holding(a, key) == Holding(b, key)
    ensures a == b
  {
    forall key ensures key in a <==> key in b {
      assert Holding(a, key) == Holding(b, key);
    }
    forall key | key in a ensures a[key] == b[key] {
      assert Holding(a, key) == Holding(b, key);
    }
  }

  /** A crash in the copy pass leaves copies made and nothing recorded. The next run's pass ends where
      this one would have. */
  lemma CopyAgainAfterCrash(sh: Shelf, limit: nat, m: nat, told: bool, now: int)
    requires m <= |Claim(sh.rows, ToCopy, limit)|
    ensures var claim := Claim(sh.rows, ToCopy, limit);
            var crashed := sh.(archive := Passed(ToCopy, sh, claim[..m], told, now).archive);
            Passed(ToCopy, crashed, Claim(crashed.rows, ToCopy, limit), told, now)
              == Passed(ToCopy, sh, claim, told, now)
  {
    hide Claim, CopiedRow, Took;
    var claim := Claim(sh.rows, ToCopy, limit);
    ClaimIsFair(sh.rows, ToCopy, limit);
    var part := claim[..m];
    CopyComesTo(sh, part, told, now);
    CopyComesTo(sh, claim, told, now);
    var crashed := sh.(archive := Passed(ToCopy, sh, part, told, now).archive);
    CopyComesTo(crashed, claim, told, now);
    var a, b := Passed(ToCopy, crashed, claim, told, now), Passed(ToCopy, sh, claim, told, now);
    forall key ensures Holding(a.archive, key) == Holding(b.archive, key) {
      TookOfPart(sh, claim, m, key);
      TookOfRows(sh, crashed, claim, key);
    }
    SameHoldings(a.archive, b.archive);
    assert a.rows == b.rows;
  }

  lemma TookOfPart(sh: Shelf, claim: seq<nat>, m: nat, key: nat)
    requires m <= |claim|
    ensures Took(sh, claim[..m], key) ==> Took(sh, claim, key)
  {
    if Took(sh, claim[..m], key) {
      var k :| 0 <= k < m && claim[..m][k] < |sh.rows| && sh.rows[claim[..m][k]].key == Some(key);
      assert claim[k] == claim[..m][k];
    }
  }

  lemma TookOfRows(a: Shelf, b: Shelf, claim: seq<nat>, key: nat)
    requires a.rows == b.rows && a.spool == b.spool
    ensures Took(a, claim, key) <==> Took(b, claim, key)
  {
  }

  /** A crash in the release pass leaves objects deleted and nothing recorded; deleting again what is
      gone changes nothing, and the next pass ends where this one would have. */
  lemma FreeAgainAfterCrash(sh: Shelf, limit: nat, m: nat, told: bool, now: int)
    requires m <= |Claim(sh.rows, ToFree, limit)|
    ensures var claim := Claim(sh.rows, ToFree, limit);
            var crashed := sh.(spool := Passed(ToFree, sh, claim[..m], told, now).spool);
            Passed(ToFree, crashed, Claim(crashed.rows, ToFree, limit), told, now)
              == Passed(ToFree, sh, claim, told, now)
  {
    hide Claim, FreedRow, Gave;
    var claim := Claim(sh.rows, ToFree, limit);
    ClaimIsFair(sh.rows, ToFree, limit);
    var part := claim[..m];
    FreeComesTo(sh, part, told, now);
    FreeComesTo(sh, claim, told, now);
    var crashed := sh.(spool := Passed(ToFree, sh, part, told, now).spool);
    FreeComesTo(crashed, claim, told, now);
    var a, b := Passed(ToFree, crashed, claim, told, now), Passed(ToFree, sh, claim, told, now);
    forall key ensures Holding(a.spool, key) == Holding(b.spool, key) {
      GaveOfPart(sh, claim, m, told, now, key);
      GaveOfRows(sh, crashed, claim, told, now, key);
    }
    SameHoldings(a.spool, b.spool);
    assert a.rows == b.rows;
  }

  lemma GaveOfPart(sh: Shelf, claim: seq<nat>, m: nat, told: bool, now: int, key: nat)
    requires m <= |claim|
    ensures Gave(sh, claim[..m], told, now, key) ==> Gave(sh, claim, told, now, key)
  {
    hide FreedRow;
    if Gave(sh, claim[..m], told, now, key) {
      var k :| 0 <= k < m && claim[..m][k] < |sh.rows| && Gives(sh, claim[..m][k], told, now, key);
      assert claim[k] == claim[..m][k];
    }
  }

  lemma GaveOfRows(a: Shelf, b: Shelf, claim: seq<nat>, told: bool, now: int, key: nat)
    requires a.rows == b.rows && a.archive == b.archive
    ensures Gave(a, claim, told, now, key) <==> Gave(b, claim, told, now, key)
  {
  }

  // -------------------------------------------------------------- progress

  ghost predicate KeysApart(rows: seq<Row>) {
    forall i, j :: 0 <= i < j < |rows| && rows[i].key.Some? ==> rows[i].key != rows[j].key
  }

  /** The spool holds this row's take. */
  ghost predicate CanCopy(sh: Shelf, i: nat)
    requires i < |sh.rows|
  {
    var row := sh.rows[i];
    row.state == OnPrem && row.key.Some? && ArchiveMatches(row, Head(Holding(sh.spool, row.key.value), true))
  }

  /** The archive holds this row's take, and the spool copy has not been released. */
  ghost predicate CanFree(sh: Shelf, i: nat)
    requires i < |sh.rows|
  {
    var row := sh.rows[i];
    && row.state == Archived && row.freedAt == None
    && (row.key == None || ArchiveMatches(row, Head(Holding(sh.archive, row.key.value), true)))
  }

  ghost function Copyable(sh: Shelf): set<nat> {
    set i | 0 <= i < |sh.rows| && CanCopy(sh, i)
  }

  ghost function Freeable(sh: Shelf): set<nat> {
    set i | 0 <= i < |sh.rows| && CanFree(sh, i)
  }

  /** Rows a pass will claim and can do nothing for: what the spool or the archive holds is not the take. */
  ghost function StuckFor(sh: Shelf, q: Query): set<nat> {
    set i | 0 <= i < |sh.rows| && Selected(sh.rows[i], q) && !(if q == ToCopy then CanCopy(sh, i) else CanFree(sh, i))
  }

  /** Nothing raises, and the stuck rows do not fill a whole batch. */
  ghost predicate Drainable(sh: Shelf, limit: nat) {
    && KeysApart(sh.rows)
    && (forall i :: 0 <= i < |sh.rows| && sh.rows[i].state == OnPrem ==>
         sh.rows[i].key.Some? && sh.rows[i].key.value in sh.spool)
    && |StuckFor(sh, ToCopy)| < limit && |StuckFor(sh, ToFree)| < limit
  }

  ghost function AsSet(s: seq<nat>): set<nat> {
    set x | x in s
  }

  lemma {:induction false} OnceIsASet(s: seq<nat>)
    requires Once(s)
    ensures |AsSet(s)| == |s|
  {
    if s != [] {
      var init, last := s[..|s| - 1], s[|s| - 1];
      OnceIsASet(init);
      assert s == init + [last];
      assert last !in init;
      assert AsSet(s) == AsSet(init) + {last};
    }
  }

  lemma SubsetIsNoLarger(a: set<nat>, b: set<nat>)
    requires a <= b
    ensures |a| <= |b| && (a != b ==> |a| < |b|)
  {
    assert b == a + (b - a);
    assert |b| == |a| + |b - a|;
  }

  /** A claim that is not all stuck rows, when there is anything else to claim. */
  lemma ClaimReachesOne(sh: Shelf, q: Query, limit: nat, i: nat)
    requires |StuckFor(sh, q)| < limit && i < |sh.rows| && Selected(sh.rows[i], q) && i !in StuckFor(sh, q)
    ensures exists x :: x in Claim(sh.rows, q, limit) && x < |sh.rows| && x !in StuckFor(sh, q)
  {
    hide Claim, CanCopy, CanFree;
    var claim := Claim(sh.rows, q, limit);
    ClaimIsFair(sh.rows, q, limit);
    if |claim| < limit {
      assert i in claim;
    } else {
      OnceIsASet(claim);
      var taken := AsSet(claim);
      if taken <= StuckFor(sh, q) {
        SubsetIsNoLarger(taken, StuckFor(sh, q));
        assert false;
      }
      var x :| x in taken && x !in StuckFor(sh, q);
      assert x in claim;
      var k :| 0 <= k < |claim| && claim[k] == x;
    }
  }

  /** The state between the two passes, and the two claims of one run. */
  ghost predicate TwoPasses(sh: Shelf, limit: nat, now: int, first: seq<nat>, mid: Shelf, second: seq<nat>, t: Shelf) {
    && first == Claim(sh.rows, ToCopy, limit) && CopyCame(sh, first, true, now, mid)
    && second == Claim(mid.rows, ToFree, limit) && FreeCame(mid, second, true, now, t)
    && t == Run(sh, limit, true, now)
  }

  lemma RunIsTwoPasses(sh: Shelf, limit: nat, now: int) returns (first: seq<nat>, mid: Shelf, second: seq<nat>,
                       t: Shelf)
    ensures TwoPasses(sh, limit, now, first, mid, second, t)
  {
    hide Claim, CopyCame, FreeCame;
    first := Claim(sh.rows, ToCopy, limit);
    mid := Passed(ToCopy, sh, first, true, now);
    second := Claim(mid.rows, ToFree, limit);
    t := Run(sh, limit, true, now);
    ClaimIsFair(sh.rows, ToCopy, limit);
    ClaimIsFair(mid.rows, ToFree, limit);
    CopyComesTo(sh, first, true, now);
    FreeComesTo(mid, second, true, now);
  }

  /** After the copy pass: what could be copied either was, and can now be freed, or still can be. */
  lemma CopyMoves(sh: Shelf, first: seq<nat>, now: int, mid: Shelf, i: nat)
    requires KeysApart(sh.rows) && CopyCame(sh, first, true, now, mid) && i < |sh.rows|
    requires forall k :: 0 <= k < |first| ==> first[k] < |sh.rows| && sh.rows[first[k]].state == OnPrem
    ensures CanCopy(mid, i) <==> CanCopy(sh, i) && i !in first
    ensures CanFree(mid, i) <==> CanFree(sh, i) || (CanCopy(sh, i) && i in first && sh.rows[i].freedAt == None)
    ensures mid.rows[i].state == OnPrem ==> sh.rows[i].state == OnPrem
    ensures mid.rows[i].state == OnPrem && !CanCopy(mid, i) ==> !CanCopy(sh, i)
    ensures Selected(mid.rows[i], ToFree) && !CanFree(mid, i) ==> Selected(sh.rows[i], ToFree) && !CanFree(sh, i)
  {
    if sh.rows[i].key.Some? {
      TookAlone(sh, first, i);
    }
  }

  /** With keys apart, only a row's own claim touches its key. */
  lemma TookAlone(sh: Shelf, first: seq<nat>, i: nat)
    requires KeysApart(sh.rows) && i < |sh.rows| && sh.rows[i].key.Some?
    requires forall k :: 0 <= k < |first| ==> first[k] < |sh.rows|
    ensures Took(sh, first, sh.rows[i].key.value) <==> i in first && sh.rows[i].key.value in sh.spool
  {
    var key := sh.rows[i].key.value;
    if Took(sh, first, key) {
      var k :| 0 <= k < |first| && first[k] < |sh.rows| && sh.rows[first[k]].key == Some(key);
      assert first[k] == i;
    }
  }

  lemma GaveAlone(mid: Shelf, second: seq<nat>, now: int, i: nat)
    requires KeysApart(mid.rows) && i < |mid.rows| && mid.rows[i].key.Some?
    requires forall k :: 0 <= k < |second| ==> second[k] < |mid.rows|
    ensures Gave(mid, second, true, now, mid.rows[i].key.value) <==>
              i in second && FreedRow(mid.rows[i], mid.archive, true, now) != mid.rows[i]
  {
    hide FreedRow;
    var key := mid.rows[i].key.value;
    if Gave(mid, second, true, now, key) {
      var k :| 0 <= k < |second| && second[k] < |mid.rows| && Gives(mid, second[k], true, now, key);
      assert second[k] == i;
    }
    if i in second && FreedRow(mid.rows[i], mid.archive, true, now) != mid.rows[i] {
      assert Gives(mid, i, true, now, key);
    }
  }

  /** After the release pass: what could be freed either was, or still can be; nothing else moved. */
  lemma FreeMoves(mid: Shelf, second: seq<nat>, now: int, t: Shelf, i: nat)
    requires KeysApart(mid.rows) && FreeCame(mid, second, true, now, t) && i < |mid.rows|
    requires forall k :: 0 <= k < |second| ==> second[k] < |mid.rows| && Selected(mid.rows[second[k]], ToFree)
    ensures CanCopy(t, i) <==> CanCopy(mid, i)
    ensures CanFree(t, i) <==> CanFree(mid, i) && i !in second
    ensures t.rows[i].state == mid.rows[i].state && t.rows[i].key == mid.rows[i].key
    ensures Selected(t.rows[i], ToFree) && !CanFree(t, i) ==> Selected(mid.rows[i], ToFree) && !CanFree(mid, i)
    ensures mid.rows[i].state == OnPrem && mid.rows[i].key.Some? ==>
              Holding(t.spool, mid.rows[i].key.value) == Holding(mid.spool, mid.rows[i].key.value)
  {
    if mid.rows[i].key.Some? {
      GaveAlone(mid, second, now, i);
    }
  }

  /** What one run does to one row. */
  lemma RunMoves(sh: Shelf, limit: nat, now: int, first: seq<nat>, mid: Shelf, second: seq<nat>, t: Shelf, i: nat)
    requires KeysApart(sh.rows) && TwoPasses(sh, limit, now, first, mid, second, t) && i < |sh.rows|
    ensures |t.rows| == |mid.rows| == |sh.rows|
    ensures CanCopy(t, i) <==> CanCopy(sh, i) && i !in first
    ensures CanFree(mid, i) <==> CanFree(sh, i) || (CanCopy(sh, i) && i in first && sh.rows[i].freedAt == None)
    ensures CanFree(t, i) <==> CanFree(mid, i) && i !in second
    ensures t.rows[i].key == sh.rows[i].key
    ensures t.rows[i].state == OnPrem ==> sh.rows[i].state == OnPrem
    ensures t.rows[i].state == OnPrem && !CanCopy(t, i) ==> !CanCopy(sh, i)
    ensures t.rows[i].state == OnPrem && t.rows[i].key.Some? && t.rows[i].key.value in sh.spool ==>
              t.rows[i].key.value in t.spool
    ensures Selected(t.rows[i], ToFree) && !CanFree(t, i) ==> Selected(sh.rows[i], ToFree) && !CanFree(sh, i)
  {
    hide Claim, CanCopy, CanFree;
    assert KeysApart(mid.rows) by {
      forall a, b | 0 <= a < b < |mid.rows| && mid.rows[a].key.Some? ensures mid.rows[a].key != mid.rows[b].key {
        assert mid.rows[a].key == sh.rows[a].key && mid.rows[b].key == sh.rows[b].key;
      }
    }
    CopyMoves(sh, first, now, mid, i);
    FreeMoves(mid, second, now, t, i);
    if t.rows[i].state == OnPrem && t.rows[i].key.Some? {
      assert Holding(t.spool, t.rows[i].key.value) == Holding(sh.spool, t.rows[i].key.value);
    }
  }

  /** How much there is left to drain. */
  ghost function Left(sh: Shelf): nat {
    2 * |Copyable(sh)| + |Freeable(sh)|
  }

  lemma StaysDrainable(sh: Shelf, limit: nat, now: int)
    requires Drainable(sh, limit)
    ensures Drainable(Run(sh, limit, true, now), limit)
  {
    hide Claim, CanCopy, CanFree, Run;
    var first, mid, second, t := RunIsTwoPasses(sh, limit, now);
    forall i | 0 <= i < |sh.rows|
      ensures |t.rows| == |sh.rows| && t.rows[i].key == sh.rows[i].key
      ensures t.rows[i].state == OnPrem ==> t.rows[i].key.Some? && t.rows[i].key.value in t.spool
      ensures i in StuckFor(t, ToCopy) ==> i in StuckFor(sh, ToCopy)
      ensures i in StuckFor(t, ToFree) ==> i in StuckFor(sh, ToFree)
    {
      RunMoves(sh, limit, now, first, mid, second, t, i);
    }
    assert |t.rows| == |sh.rows|;
    SubsetIsNoLarger(StuckFor(t, ToCopy), StuckFor(sh, ToCopy));
    SubsetIsNoLarger(StuckFor(t, ToFree), StuckFor(sh, ToFree));
  }

  /** The sets of one run: what was copied moves from one set to the other, what was freed leaves. */
  lemma RunShrinks(sh: Shelf, limit: nat, now: int, first: seq<nat>, mid: Shelf, second: seq<nat>, t: Shelf)
    requires Drainable(sh, limit) && TwoPasses(sh, limit, now, first, mid, second, t)
    ensures Copyable(t) <= Copyable(sh)
    ensures Freeable(mid) <= Freeable(sh) + (Copyable(sh) - Copyable(t))
    ensures Freeable(t) <= Freeable(mid)
    ensures |StuckFor(mid, ToFree)| < limit
  {
    hide Claim, CanCopy, CanFree, Run;
    forall i | 0 <= i < |sh.rows|
      ensures |t.rows| == |mid.rows| == |sh.rows|
      ensures i in Copyable(t) ==> i in Copyable(sh)
      ensures i in Freeable(mid) ==> i in Freeable(sh) || (i in Copyable(sh) && i !in Copyable(t))
      ensures i in Freeable(t) ==> i in Freeable(mid)
      ensures i in StuckFor(mid, ToFree) ==> i in StuckFor(sh, ToFree)
    {
      RunMoves(sh, limit, now, first, mid, second, t, i);
      CopyMoves(sh, first, now, mid, i);
    }
    assert |t.rows| == |mid.rows| == |sh.rows|;
    SubsetIsNoLarger(StuckFor(mid, ToFree), StuckFor(sh, ToFree));
  }

  lemma CopiesOne(sh: Shelf, limit: nat, now: int, first: seq<nat>, mid: Shelf, second: seq<nat>, t: Shelf)
    requires Drainable(sh, limit) && TwoPasses(sh, limit, now, first, mid, second, t) && Copyable(sh) != {}
    ensures Copyable(t) != Copyable(sh)
  {
    hide Claim, Run, Head, ArchiveMatches, CanFree, CopyCame, FreeCame;
    var i :| i in Copyable(sh);
    ClaimReachesOne(sh, ToCopy, limit, i);
    var x :| x in first && x < |sh.rows| && x !in StuckFor(sh, ToCopy);
    RunMoves(sh, limit, now, first, mid, second, t, x);
    assert x in Copyable(sh) && x !in Copyable(t);
  }

  lemma FreesOne(sh: Shelf, limit: nat, now: int, first: seq<nat>, mid: Shelf, second: seq<nat>, t: Shelf)
    requires Drainable(sh, limit) && TwoPasses(sh, limit, now, first, mid, second, t) && Freeable(mid) != {}
    ensures Freeable(t) != Freeable(mid)
  {
    hide Claim, Run, CopyCame, FreeCame, Head, ArchiveMatches, CanCopy;
    RunShrinks(sh, limit, now, first, mid, second, t);
    var i :| i in Freeable(mid);
    ClaimReachesOne(mid, ToFree, limit, i);
    var x :| x in second && x < |mid.rows| && x !in StuckFor(mid, ToFree);
    assert |mid.rows| == |sh.rows| by { SameTable(sh, limit, now, first, mid, second, t); }
    RunMoves(sh, limit, now, first, mid, second, t, x);
    assert Selected(mid.rows[x], ToFree);
    assert x in Freeable(mid) && x !in Freeable(t);
  }

  lemma SameTable(sh: Shelf, limit: nat, now: int, first: seq<nat>, mid: Shelf, second: seq<nat>, t: Shelf)
    requires TwoPasses(sh, limit, now, first, mid, second, t)
    ensures |mid.rows| == |sh.rows| == |t.rows|
  {
  }

  /** Every run of the drain does something, as long as there is anything it can do. */
  lemma EveryRunCounts(sh: Shelf, limit: nat, now: int)
    requires Drainable(sh, limit)
    ensures Left(sh) > 0 ==> Left(Run(sh, limit, true, now)) < Left(sh)
    ensures Left(sh) == 0 ==> Left(Run(sh, limit, true, now)) == 0
  {
    hide Claim, Run, Drainable, TwoPasses, Copyable, Freeable;
    var first, mid, second, t := RunIsTwoPasses(sh, limit, now);
    assert t == Run(sh, limit, true, now) by { hide *; LastIsRun(sh, limit, now, first, mid, second, t); }
    RunShrinks(sh, limit, now, first, mid, second, t);
    var c, c2, f, m, f2 := Copyable(sh), Copyable(t), Freeable(sh), Freeable(mid), Freeable(t);
    SubsetIsNoLarger(c2, c);
    SubsetIsNoLarger(f2, m);
    SubsetIsNoLarger(m, f + (c - c2));
    assert |f + (c - c2)| <= |f| + |c - c2| && |c - c2| == |c| - |c2| by { hide *; Sizes(f, c, c2); }
    if c != {} {
      CopiesOne(sh, limit, now, first, mid, second, t);
    } else {
      assert c2 == {};
      if m != {} {
        FreesOne(sh, limit, now, first, mid, second, t);
      } else if f != {} {
        var i :| i in f;
        StillFreeable(sh, limit, now, first, mid, second, t, i);
      }
    }
  }

  lemma LastIsRun(sh: Shelf, limit: nat, now: int, first: seq<nat>, mid: Shelf, second: seq<nat>, t: Shelf)
    requires TwoPasses(sh, limit, now, first, mid, second, t)
    ensures t == Run(sh, limit, true, now)
  {
  }

  lemma Sizes(f: set<nat>, c: set<nat>, c2: set<nat>)
    requires c2 <= c
    ensures |f + (c - c2)| <= |f| + |c - c2| && |c - c2| == |c| - |c2|
  {
    assert c == c2 + (c - c2);
    assert |f + (c - c2)| == |f| + |c - c2| - |f * (c - c2)|;
  }

  lemma StillFreeable(sh: Shelf, limit: nat, now: int, first: seq<nat>, mid: Shelf, second: seq<nat>, t: Shelf, i: nat)
    requires Drainable(sh, limit) && TwoPasses(sh, limit, now, first, mid, second, t) && i in Freeable(sh)
    ensures i in Freeable(mid)
  {
    hide Claim, Run, CanFree, CanCopy;
    RunMoves(sh, limit, now, first, mid, second, t, i);
  }

  function Runs(sh: Shelf, limit: nat, now: int, n: nat): Shelf
    decreases n
  {
    if n == 0 then sh else Runs(Run(sh, limit, true, now), limit, now, n - 1)
  }

  /** Repeating the drain empties it, in no more runs than there was left to do. */
  lemma {:induction false} DrainFinishes(sh: Shelf, limit: nat, now: int, n: nat)
    requires Drainable(sh, limit) && n >= Left(sh)
    ensures Copyable(Runs(sh, limit, now, n)) == {} && Freeable(Runs(sh, limit, now, n)) == {}
    decreases n
  {
    hide Run, Drainable, Copyable, Freeable;
    if n > 0 {
      EveryRunCounts(sh, limit, now);
      StaysDrainable(sh, limit, now);
      DrainFinishes(Run(sh, limit, true, now), limit, now, n - 1);
    }
  }

  /** Where a take is on its way through: waiting with its bytes in the spool, archived with the spool
      copy still there to release, or archived and released; its bytes are always in one of the stores. */
  ghost predicate OnItsWay(sh: Shelf, i: nat, c: Content) {
    && i < |sh.rows| && sh.rows[i].key.Some?
    && var key := sh.rows[i].key.value;
       || (CanCopy(sh, i) && sh.rows[i].freedAt == None && Holding(sh.spool, key) == Some(c))
       || (CanFree(sh, i) && Holding(sh.archive, key) == Some(c))
       || Home(sh, i, key, c)
  }

  ghost predicate Home(sh: Shelf, i: nat, key: nat, c: Content)
    requires i < |sh.rows|
  {
    && sh.rows[i].state == Archived && sh.rows[i].freedAt.Some? && sh.rows[i].key == Some(key)
    && Holding(sh.archive, key) == Some(c) && Holding(sh.spool, key) == None
  }

  lemma CopyKeepsWay(sh: Shelf, first: seq<nat>, now: int, mid: Shelf, i: nat, c: Content)
    requires KeysApart(sh.rows) && CopyCame(sh, first, true, now, mid) && OnItsWay(sh, i, c)
    requires forall k :: 0 <= k < |first| ==> first[k] < |sh.rows| && sh.rows[first[k]].state == OnPrem
    ensures OnItsWay(mid, i, c)
  {
    hide ArchiveMatches, Head, Took;
    TookAlone(sh, first, i);
    CopyMoves(sh, first, now, mid, i);
  }

  lemma FreeKeepsWay(mid: Shelf, second: seq<nat>, now: int, t: Shelf, i: nat, c: Content)
    requires KeysApart(mid.rows) && FreeCame(mid, second, true, now, t) && OnItsWay(mid, i, c)
    requires forall k :: 0 <= k < |second| ==> second[k] < |mid.rows| && Selected(mid.rows[second[k]], ToFree)
    ensures OnItsWay(t, i, c)
  {
    hide ArchiveMatches, Head, Gave;
    GaveAlone(mid, second, now, i);
    FreeMoves(mid, second, now, t, i);
  }

  lemma RunKeepsWay(sh: Shelf, limit: nat, now: int, i: nat, c: Content)
    requires KeysApart(sh.rows) && OnItsWay(sh, i, c)
    ensures OnItsWay(Run(sh, limit, true, now), i, c)
  {
    hide Claim, OnItsWay, Run;
    var first, mid, second, t := RunIsTwoPasses(sh, limit, now);
    CopyKeepsWay(sh, first, now, mid, i, c);
    assert KeysApart(mid.rows) by { hide Head, ArchiveMatches; SameKeys(sh, first, now, mid); }
    FreeKeepsWay(mid, second, now, t, i, c);
  }

  lemma SameKeys(sh: Shelf, first: seq<nat>, now: int, mid: Shelf)
    requires KeysApart(sh.rows) && CopyCame(sh, first, true, now, mid)
    ensures KeysApart(mid.rows)
  {
    hide CopiedRow;
    assert forall a :: 0 <= a < |mid.rows| ==> mid.rows[a].key == sh.rows[a].key;
  }

  /** Every take that has landed and was never freed ends archived, released, and with exactly its
      bytes in the archive, in no more runs than there was left to do, from any state a crash left. */
  lemma {:induction false} EveryTakeGetsHome(sh: Shelf, limit: nat, now: int, n: nat, i: nat, c: Content)
    requires Drainable(sh, limit) && n >= Left(sh) && OnItsWay(sh, i, c)
    ensures i < |Runs(sh, limit, now, n).rows| && sh.rows[i].key.Some?
    ensures Home(Runs(sh, limit, now, n), i, sh.rows[i].key.value, c)
    decreases n
  {
    hide Run, CanCopy, CanFree, StuckFor;
    var t := Run(sh, limit, true, now);
    if n > 0 {
      EveryRunCounts(sh, limit, now);
      StaysDrainable(sh, limit, now);
      RunKeepsWay(sh, limit, now, i, c);
      EveryTakeGetsHome(t, limit, now, n - 1, i, c);
      assert t.rows[i].key == sh.rows[i].key by { KeyStays(sh, limit, now, i); }
    } else {
      assert i !in Copyable(sh) && i !in Freeable(sh);
    }
  }

  lemma KeyStays(sh: Shelf, limit: nat, now: int, i: nat)
    requires KeysApart(sh.rows) && i < |sh.rows|
    ensures i < |Run(sh, limit, true, now).rows| && Run(sh, limit, true, now).rows[i].key == sh.rows[i].key
  {
    hide Claim, Run, CanCopy, CanFree;
    var first, mid, second, t := RunIsTwoPasses(sh, limit, now);
    RunMoves(sh, limit, now, first, mid, second, t, i);
  }

  /** A copy pass records nothing exactly when every row it claimed is stuck; rows whose spool object is
      not their take are claimed first for ever, so a batch full of them stops the drain. */
  lemma NothingMovesIffAllStuck(sh: Shelf, limit: nat, now: int)
    requires forall i :: 0 <= i < |sh.rows| && sh.rows[i].state == OnPrem ==> sh.rows[i].key.Some?
    ensures var claim := Claim(sh.rows, ToCopy, limit);
            Passed(ToCopy, sh, claim, true, now).rows == sh.rows <==> AsSet(claim) <= StuckFor(sh, ToCopy)
  {
    hide Claim;
    var claim := Claim(sh.rows, ToCopy, limit);
    ClaimIsFair(sh.rows, ToCopy, limit);
    CopyComesTo(sh, claim, true, now);
    var t := Passed(ToCopy, sh, claim, true, now);
    forall i | 0 <= i < |sh.rows| && i in claim ensures t.rows[i] == sh.rows[i] <==> i in StuckFor(sh, ToCopy) {
      assert sh.rows[i].state == OnPrem by {
        var k :| 0 <= k < |claim| && claim[k] == i;
      }
    }
    if AsSet(claim) <= StuckFor(sh, ToCopy) {
      assert t.rows == sh.rows;
    } else {
      var x :| x in AsSet(claim) && x !in StuckFor(sh, ToCopy);
      var k :| 0 <= k < |claim| && claim[k] == x;
      assert t.rows[x] != sh.rows[x];
    }
  }
}
