/** The drain over the whole table: copy what has landed to the archive, then release from the spool
    what the archive can account for, a batch at a time, and again after any crash. */
module VideoDrain {
  import opened Options
  import opened VideoRows

  // A store keeps one object a key; the table is in the order of its primary key.
  datatype Shelf = Shelf(rows: seq<Row>, spool: map<nat, Content>, archive: map<nat, Content>)

  datatype Query = ToCopy | ToFree

  function Holding(store: map<nat, Content>, key: nat): Option<Content> {
    if key in store then Some(store[key]) else None
  }

  predicate Selected(row: Row, q: Query) {
    match q
    case ToCopy => row.state == OnPrem
    case ToFree => row.state == Archived && row.freedAt == None
  }

  function Age(row: Row, q: Query): int {
    if q == ToCopy then row.storedAt else row.archivedAt
  }

  // ---------------------------------------------------------- the claim

  function InsertByAge(rows: seq<Row>, q: Query, i: nat, s: seq<nat>): (r: seq<nat>)
    requires i < |rows| && forall k :: 0 <= k < |s| ==> s[k] < |rows|
    ensures |r| == |s| + 1 && forall k :: 0 <= k < |r| ==> r[k] < |rows|
    ensures forall x :: x in r <==> x == i || x in s
  {
    if s == [] || Age(rows[i], q) < Age(rows[s[0]], q) then [i] + s
    else
      assert s == [s[0]] + s[1..];
      [s[0]] + InsertByAge(rows, q, i, s[1..])
  }

  /** Everything selected among the first n rows, oldest first. */
  function Queue(rows: seq<Row>, q: Query, n: nat): (r: seq<nat>)
    requires n <= |rows|
    ensures forall k :: 0 <= k < |r| ==> r[k] < |rows|
    ensures forall x :: x in r <==> 0 <= x < n && Selected(rows[x], q)
  {
    if n == 0 then []
    else if Selected(rows[n - 1], q) then InsertByAge(rows, q, n - 1, Queue(rows, q, n - 1))
    else Queue(rows, q, n - 1)
  }

  function Claim(rows: seq<Row>, q: Query, limit: nat): (r: seq<nat>)
    ensures forall k :: 0 <= k < |r| ==> r[k] < |rows| && Selected(rows[r[k]], q)
    ensures |r| <= limit
  {
    var all := Queue(rows, q, |rows|);
    var r := if |all| <= limit then all else all[..limit];
    assert forall k :: 0 <= k < |r| ==> r[k] in all;
    r
  }

  ghost predicate Once(s: seq<nat>) {
    forall i, j :: 0 <= i < j < |s| ==> s[i] != s[j]
  }

  lemma {:induction false} InsertStaysOnce(rows: seq<Row>, q: Query, i: nat, s: seq<nat>)
    requires i < |rows| && (forall k :: 0 <= k < |s| ==> s[k] < |rows|) && Once(s) && i !in s
    ensures Once(InsertByAge(rows, q, i, s))
  {
    if s == [] || Age(rows[i], q) < Age(rows[s[0]], q) {
    } else {
      InsertStaysOnce(rows, q, i, s[1..]);
      var rest := InsertByAge(rows, q, i, s[1..]);
      assert s[0] !in s[1..];
      assert s[0] !in rest;
    }
  }

  lemma {:induction false} QueueOnce(rows: seq<Row>, q: Query, n: nat)
    requires n <= |rows|
    ensures Once(Queue(rows, q, n))
  {
    hide Once, InsertByAge, Age;
    if n == 0 {
      assert Once([]) by { NoneTwice(); }
    } else {
      QueueOnce(rows, q, n - 1);
      if Selected(rows[n - 1], q) {
        InsertStaysOnce(rows, q, n - 1, Queue(rows, q, n - 1));
      }
    }
  }

  lemma NoneTwice()
    ensures Once([])
  {
  }

  /** A claim takes each row once, and falls short of its limit only by taking everything. */
  lemma ClaimIsFair(rows: seq<Row>, q: Query, limit: nat)
    ensures Once(Claim(rows, q, limit))
    ensures |Claim(rows, q, limit)| < limit ==> forall i :: 0 <= i < |rows| && Selected(rows[i], q) ==>
              i in Claim(rows, q, limit)
  {
    QueueOnce(rows, q, |rows|);
  }

  // ------------------------------------------------------------- the passes

  /** One row of the copy pass, for a key that is in the spool: the archive takes what the spool has,
      and the row is archived if that is the take it describes. */
  function CopyOne(sh: Shelf, i: nat, told: bool, now: int): Shelf
    requires i < |sh.rows|
  {
    var row := sh.rows[i];
    if row.key == None || row.key.value !in sh.spool then sh
    else
      var archive := sh.archive[row.key.value := sh.spool[row.key.value]];
      Shelf(sh.rows[i := CopiedRow(row, sh.spool, told, now)], sh.spool, archive)
  }

  function CopiedRow(row: Row, spool: map<nat, Content>, told: bool, now: int): (r: Row)
    ensures r.key == row.key && r.bytes == row.bytes && r.sha256 == row.sha256 && r.freedAt == row.freedAt
  {
    if row.key.Some? && row.key.value in spool && ArchiveMatches(row, Head(Holding(spool, row.key.value), told))
    then row.(state := Archived, archivedAt := now) else row
  }

  function FreeOne(sh: Shelf, i: nat, told: bool, now: int): Shelf
    requires i < |sh.rows|
  {
    var row := FreedRow(sh.rows[i], sh.archive, told, now);
    if row == sh.rows[i] then sh
    else Shelf(sh.rows[i := row], if row.key.Some? then sh.spool - {row.key.value} else sh.spool, sh.archive)
  }

  function FreedRow(row: Row, archive: map<nat, Content>, told: bool, now: int): (r: Row)
    ensures r.key == row.key && r.bytes == row.bytes && r.sha256 == row.sha256 && r.state == row.state
  {
    if row.freedAt == None && (row.key == None || ArchiveMatches(row, Head(Holding(archive, row.key.value), told)))
    then row.(freedAt := Some(now)) else row
  }

  function One(q: Query, sh: Shelf, i: nat, told: bool, now: int): (r: Shelf)
    requires i < |sh.rows|
    ensures |r.rows| == |sh.rows|
  {
    if q == ToCopy then CopyOne(sh, i, told, now) else FreeOne(sh, i, told, now)
  }

  /** A pass over a claim. */
  function Passed(q: Query, sh: Shelf, claim: seq<nat>, told: bool, now: int): (r: Shelf)
    requires forall k :: 0 <= k < |claim| ==> claim[k] < |sh.rows|
    ensures |r.rows| == |sh.rows|
  {
    if claim == [] then sh
    else One(q, Passed(q, sh, claim[..|claim| - 1], told, now), claim[|claim| - 1], told, now)
  }

  /** Some claimed row names a key the spool does not hold: the copy raises. */
  ghost predicate Stranded(sh: Shelf, claim: seq<nat>) {
    exists k :: 0 <= k < |claim| && claim[k] < |sh.rows| && NotThere(sh, claim[k])
  }

  predicate NotThere(sh: Shelf, i: nat)
    requires i < |sh.rows|
  {
    sh.rows[i].key.Some? && sh.rows[i].key.value !in sh.spool
  }

  class Worker {
    var rows: seq<Row>
    var spool: map<nat, Content>
    var archive: map<nat, Content>

    constructor (sh: Shelf)
      ensures Now() == sh
    {
      rows, spool, archive := sh.rows, sh.spool, sh.archive;
    }

    function Now(): Shelf
      reads this
    {
      Shelf(rows, spool, archive)
    }

    /** Pass 1. Nothing is recorded until the end: an object missing from the spool raises, and every
        row of the batch stays as it was, with only the copies already made to show for it. */
    method CopyBatch(limit: nat, told: bool, now: int) returns (ok: bool)
      modifies this
      ensures ok <==> !Stranded(old(Now()), Claim(old(rows), ToCopy, limit))
      ensures ok ==> Now() == Passed(ToCopy, old(Now()), Claim(old(rows), ToCopy, limit), told, now)
      ensures !ok ==> rows == old(rows) && spool == old(spool)
      ensures !ok ==> exists k :: 0 <= k < |Claim(old(rows), ToCopy, limit)| && archive
                        == Passed(ToCopy, old(Now()), Claim(old(rows), ToCopy, limit)[..k], told, now).archive
    {
      hide Claim, ArchiveMatches, Head;
      ghost var before := Now();
      var claim, pending := Claim(rows, ToCopy, limit), rows;
      ClaimIsFair(rows, ToCopy, limit);
      for k := 0 to |claim|
        invariant rows == before.rows && spool == before.spool && |pending| == |rows|
        invariant Shelf(pending, spool, archive) == Passed(ToCopy, before, claim[..k], told, now)
        invariant !Stranded(before, claim[..k])
        invariant forall j :: k <= j < |claim| ==> pending[claim[j]] == rows[claim[j]]
      {
        assert claim[..k + 1][..k] == claim[..k];
        var i := claim[k];
        var row := pending[i];
        if row.key.Some? {
          if row.key.value !in spool {
            assert NotThere(before, claim[k]);
            return false;
          }
          archive := archive[row.key.value := spool[row.key.value]];
          if ArchiveMatches(row, Head(Holding(archive, row.key.value), told)) {
            pending := pending[i := row.(state := Archived, archivedAt := now)];
          }
        }
        assert pending[i] == CopiedRow(row, spool, told, now);
        assert Stranded(before, claim[..k + 1]) ==> NotThere(before, claim[k]) by { StrandedGrows(before, claim, k); }
      }
      assert claim[..|claim|] == claim;
      rows := pending;
      ok := true;
    }

    /** Pass 2. Each spool copy goes only on the archive's own answer, asked again here. */
    method ReleaseSpool(limit: nat, told: bool, now: int) returns (freed: nat)
      modifies this
      ensures Now() == Passed(ToFree, old(Now()), Claim(old(rows), ToFree, limit), told, now)
    {
      hide Claim, ArchiveMatches, Head;
      ghost var before := Now();
      var claim := Claim(rows, ToFree, limit);
      ClaimIsFair(rows, ToFree, limit);
      freed := 0;
      for k := 0 to |claim|
        invariant |rows| == |before.rows|
        invariant Now() == Passed(ToFree, before, claim[..k], told, now)
        invariant forall j :: k <= j < |claim| ==> rows[claim[j]] == before.rows[claim[j]]
      {
        assert claim[..k + 1][..k] == claim[..k];
        var i := claim[k];
        var row := rows[i];
        assert Selected(row, ToFree);
        if row.key == None {
          rows := rows[i := row.(freedAt := Some(now))];
        } else if ArchiveMatches(row, Head(Holding(archive, row.key.value), told)) {
          spool := spool - {row.key.value};
          rows := rows[i := row.(freedAt := Some(now))];
          freed := freed + 1;
        }
      }
      assert claim[..|claim|] == claim;
    }

    /** One run of the drain; when the copy pass raises nothing is released. */
    method DrainBatch(limit: nat, told: bool, now: int) returns (ok: bool)
      modifies this
      ensures ok <==> !Stranded(old(Now()), Claim(old(rows), ToCopy, limit))
      ensures ok ==> Now() == Run(old(Now()), limit, told, now)
      ensures !ok ==> rows == old(rows) && spool == old(spool)
    {
      ok := CopyBatch(limit, told, now);
      if ok {
        var _ := ReleaseSpool(limit, told, now);
      }
    }
  }

  lemma StrandedGrows(sh: Shelf, claim: seq<nat>, k: nat)
    requires k < |claim| && claim[k] < |sh.rows|
    ensures Stranded(sh, claim[..k + 1]) <==> Stranded(sh, claim[..k]) || NotThere(sh, claim[k])
  {
    if Stranded(sh, claim[..k]) {
      var j :| 0 <= j < k && claim[..k][j] < |sh.rows| && NotThere(sh, claim[..k][j]);
      assert claim[..k + 1][j] == claim[..k][j];
    }
    if NotThere(sh, claim[k]) {
      assert claim[..k + 1][k] == claim[k];
    }
  }

  /** One run: copy, record, release. */
  function Run(sh: Shelf, limit: nat, told: bool, now: int): Shelf {
    var copied := Passed(ToCopy, sh, Claim(sh.rows, ToCopy, limit), told, now);
    Passed(ToFree, copied, Claim(copied.rows, ToFree, limit), told, now)
  }
}
