/** Which rows a batch takes: the oldest, and exactly those with fewer than a batch ahead of them. */
module VideoOrder {
  import opened Options
  import opened VideoDrain
  import opened VideoProgress
  import opened VideoRows

  // To copy, a row is as old as its confirm; to release, as old as its archiving.
  function Since(row: Row, q: Query): int {
    match q
    case ToCopy => row.storedAt
    case ToFree => row.archivedAt
  }

  /** Row a is ahead of row b: older, or as old and earlier in the table. */
  predicate Ahead(rows: seq<Row>, q: Query, a: nat, b: nat)
    requires a < |rows| && b < |rows|
  {
    Since(rows[a], q) < Since(rows[b], q) || (Since(rows[a], q) == Since(rows[b], q) && a < b)
  }

  ghost predicate InOrder(rows: seq<Row>, q: Query, s: seq<nat>) {
    && (forall i :: 0 <= i < |s| ==> s[i] < |rows|)
    && (forall i, j :: 0 <= i < j < |s| ==> Ahead(rows, q, s[i], s[j]))
  }

  lemma {:induction false} InsertKeepsOrder(rows: seq<Row>, q: Query, i: nat, s: seq<nat>)
    requires i < |rows| && InOrder(rows, q, s) && forall x :: x in s ==> x < i
    ensures InOrder(rows, q, InsertByAge(rows, q, i, s))
  {
    if s != [] && Since(rows[s[0]], q) <= Since(rows[i], q) {
      assert s == [s[0]] + s[1..];
      forall x | x in s[1..] ensures x < i {
        assert x in s;
      }
      assert s[0] in s;
      InsertKeepsOrder(rows, q, i, s[1..]);
      var rest := InsertByAge(rows, q, i, s[1..]);
      forall k | 0 <= k < |rest| ensures Ahead(rows, q, s[0], rest[k]) {
        assert rest[k] in rest;
        if rest[k] != i {
          var m :| 0 <= m < |s[1..]| && s[1..][m] == rest[k];
          assert s[m + 1] == rest[k];
        }
      }
    }
  }

  lemma {:induction false} QueueInOrder(rows: seq<Row>, q: Query, n: nat)
    requires n <= |rows|
    ensures InOrder(rows, q, Queue(rows, q, n))
  {
    hide InOrder, InsertByAge, Age;
    if n == 0 {
      assert InOrder(rows, q, []) by { NothingInOrder(rows, q); }
    } else {
      QueueInOrder(rows, q, n - 1);
      if Selected(rows[n - 1], q) {
        InsertKeepsOrder(rows, q, n - 1, Queue(rows, q, n - 1));
      }
    }
  }

  lemma NothingInOrder(rows: seq<Row>, q: Query)
    ensures InOrder(rows, q, [])
  {
  }

  /** The selected rows ahead of row i. */
  ghost function AllAhead(rows: seq<Row>, q: Query, i: nat): set<nat>
    requires i < |rows|
  {
    set k | 0 <= k < |rows| && Selected(rows[k], q) && Ahead(rows, q, k, i)
  }

  /** In an ordered queue of every selected row, a row stands behind exactly those ahead of it. */
  lemma PlaceInQueue(rows: seq<Row>, q: Query, all: seq<nat>, p: nat)
    requires InOrder(rows, q, all) && (forall k :: k in all <==> 0 <= k < |rows| && Selected(rows[k], q)) && p < |all|
    ensures |AllAhead(rows, q, all[p])| == p
  {
    var front := all[..p];
    forall k | k in AllAhead(rows, q, all[p]) ensures k in front {
      var m :| 0 <= m < |all| && all[m] == k;
      assert m < p;
      assert front[m] == k;
    }
    forall k | k in front ensures k in AllAhead(rows, q, all[p]) {
      var m :| 0 <= m < |front| && front[m] == k;
      assert all[m] in all && Ahead(rows, q, all[m], all[p]);
    }
    assert AsSet(front) == AllAhead(rows, q, all[p]);
    OnceIsASet(front);
  }

  /** A batch takes exactly the selected rows that have fewer than a batch of selected rows ahead of them. */
  lemma ClaimedIff(rows: seq<Row>, q: Query, limit: nat, i: nat)
    requires i < |rows|
    ensures i in Claim(rows, q, limit) <==> Selected(rows[i], q) && |AllAhead(rows, q, i)| < limit
  {
    hide AllAhead, InOrder;
    var all, claim := Queue(rows, q, |rows|), Claim(rows, q, limit);
    QueueInOrder(rows, q, |rows|);
    if Selected(rows[i], q) {
      var p :| 0 <= p < |all| && all[p] == i;
      PlaceInQueue(rows, q, all, p);
      if p < limit {
        assert claim[p] == i;
      }
      if i in claim {
        var m :| 0 <= m < |claim| && claim[m] == i;
        PlaceInQueue(rows, q, all, m);
      }
    }
  }

  /** Oldest first: the claim's ages ascend, and no selected row outside it is older than one in it. */
  lemma ClaimIsOldestFirst(rows: seq<Row>, q: Query, limit: nat)
    ensures var claim := Claim(rows, q, limit);
            && (forall i, j :: 0 <= i < j < |claim| ==> Since(rows[claim[i]], q) <= Since(rows[claim[j]], q))
            && (forall i, k :: i in claim && 0 <= k < |rows| && Selected(rows[k], q) && k !in claim ==>
                  Since(rows[i], q) <= Since(rows[k], q))
  {
    var all, claim := Queue(rows, q, |rows|), Claim(rows, q, limit);
    QueueInOrder(rows, q, |rows|);
    assert claim == all[..|claim|];
    forall i, k | i in claim && 0 <= k < |rows| && Selected(rows[k], q) && k !in claim
      ensures Since(rows[i], q) <= Since(rows[k], q)
    {
      var a :| 0 <= a < |claim| && claim[a] == i;
      var b :| 0 <= b < |all| && all[b] == k;
      forall c | 0 <= c < |claim| ensures all[c] != k {
        assert claim[c] in claim;
      }
      assert Ahead(rows, q, all[a], all[b]);
    }
  }

  /** Rows that arrive later, no older than this one, never put it off. */
  lemma LaterRowsDelayNobody(rows: seq<Row>, more: seq<Row>, q: Query, limit: nat, i: nat)
    requires i < |rows| && forall k :: 0 <= k < |more| ==> Since(rows[i], q) <= Since(more[k], q)
    ensures i in Claim(rows + more, q, limit) <==> i in Claim(rows, q, limit)
  {
    hide Claim;
    var all := rows + more;
    forall k | |rows| <= k < |all| ensures !Ahead(all, q, k, i) {
      assert all[k] == more[k - |rows|];
    }
    assert AllAhead(all, q, i) == AllAhead(rows, q, i);
    ClaimedIff(rows, q, limit, i);
    ClaimedIff(all, q, limit, i);
  }

  // ----------------------------------------------------- what a pass writes

  /** The bytes are what the row says of them, as far as it says anything; a digest needs the store's word. */
  predicate Accounts(row: Row, held: Option<Content>, told: bool) {
    && held.Some? && (row.bytes == None || row.bytes.value == |held.value|)
    && (row.sha256 == None || (told && row.sha256.value == Digest(held.value)))
  }

  /** The copy pass archives, as of now, exactly the claimed rows whose spool object is their take, and leaves
      every other row and every other column alone; the spool is not touched. */
  lemma CopyPassWrites(sh: Shelf, limit: nat, told: bool, now: int, i: nat)
    requires i < |sh.rows|
    ensures var claim := Claim(sh.rows, ToCopy, limit);
            var t, row := Passed(ToCopy, sh, claim, told, now), sh.rows[i];
            && t.spool == sh.spool && |t.rows| == |sh.rows|
            && t.rows[i] == if i in claim && row.key.Some? && Accounts(row, Holding(sh.spool, row.key.value), told)
                            then Row(Archived, row.key, row.bytes, row.sha256, row.receivedAt, row.storedAt, now,
                                     row.freedAt)
                            else row
  {
    hide Claim;
    ClaimIsFair(sh.rows, ToCopy, limit);
    CopyComesTo(sh, Claim(sh.rows, ToCopy, limit), told, now);
  }

  /** The release pass frees, as of now, exactly the claimed rows with no key or whose archive object is their
      take, and leaves every other row and column alone; the archive is not touched. */
  lemma FreePassWrites(sh: Shelf, limit: nat, told: bool, now: int, i: nat)
    requires i < |sh.rows|
    ensures var claim := Claim(sh.rows, ToFree, limit);
            var t, row := Passed(ToFree, sh, claim, told, now), sh.rows[i];
            && t.archive == sh.archive && |t.rows| == |sh.rows|
            && t.rows[i] == if i in claim
                               && (row.key == None || Accounts(row, Holding(sh.archive, row.key.value), told))
                            then Row(row.state, row.key, row.bytes, row.sha256, row.receivedAt, row.storedAt,
                                     row.archivedAt, Some(now))
                            else row
  {
    hide Claim;
    var claim := Claim(sh.rows, ToFree, limit);
    ClaimIsFair(sh.rows, ToFree, limit);
    FreeComesTo(sh, claim, told, now);
    if i in claim {
      var k :| 0 <= k < |claim| && claim[k] == i;
      assert Selected(sh.rows[claim[k]], ToFree);
    }
  }
}
