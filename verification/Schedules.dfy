/** Which of the shifts a rig holds is the one in force: as the service chooses, and as the push server
    does. Instants are minutes; a zone is a fixed number of minutes ahead of UTC. */
module Schedules {
  import opened Options

  const DAY := 1440

  const SHIFT_MINUTES := 480

  datatype Key = Key(date: int, shift: nat)

  // One pushed payload of one rig: its window as written, and when it was pushed.
  datatype Sheet = Sheet(key: Key, start: Option<nat>, end: Option<nat>, tz: Option<int>, pushedAt: int)

  datatype Window = Window(start: int, end: int)

  ghost predicate WellWritten(s: Sheet) {
    (s.start.Some? ==> s.start.value < DAY) && (s.end.Some? ==> s.end.value < DAY)
  }

  /** An instant, from a date and a time on the wall of the floor. */
  function Instant(date: int, minute: int, offset: int): int {
    date * DAY + minute - offset
  }

  // ---------------------------------------------------------- two readings

  /** As the service reads it: both ends or nothing; an end not after the start has crossed midnight. */
  function ServiceWindow(s: Sheet, fallback: int): Option<Window> {
    if s.start == None || s.end == None then None
    else
      var offset := if s.tz.Some? then s.tz.value else fallback;
      var start, end := Instant(s.key.date, s.start.value, offset), Instant(s.key.date, s.end.value, offset);
      Some(Window(start, if end <= start then end + DAY else end))
  }

  /** As the engine reads it: a length from the start, eight hours unless the sheet says otherwise. */
  function EngineWindow(s: Sheet): Option<Window> {
    if s.start == None then None
    else
      var written := if s.end.Some? then (s.end.value - s.start.value + DAY) % DAY else SHIFT_MINUTES;
      var length := if written == 0 then DAY else written;
      var start := Instant(s.key.date, s.start.value, if s.tz.Some? then s.tz.value else 0);
      Some(Window(start, start + length))
  }

  /** The two read the same window exactly when the sheet says where it ends, or that end is the usual
      one and they agree on a missing zone; a sheet with no end is no window to the service. */
  lemma WindowsAgreeIff(s: Sheet, fallback: int)
    requires WellWritten(s)
    ensures ServiceWindow(s, fallback) == EngineWindow(s) <==>
              s.start == None || (s.end.Some? && (s.tz.Some? || fallback == 0))
  {
    if s.start.Some? && s.end.Some? {
      var d := s.end.value - s.start.value;
      assert (d + DAY) % DAY == if d < 0 then d + DAY else d;
    }
  }

  predicate Within(w: Option<Window>, now: int) {
    w.Some? && w.value.start <= now < w.value.end
  }

  // -------------------------------------------------------- the service's

  /** The service asks with its own clock, which keeps UTC. */
  function Win(s: Sheet): Option<Window> {
    ServiceWindow(s, 0)
  }

  predicate KeyBefore(a: Key, b: Key) {
    a.date < b.date || (a.date == b.date && a.shift < b.shift)
  }

  predicate KeyUpTo(a: Key, b: Key) {
    a == b || KeyBefore(a, b)
  }

  predicate Upcoming(s: Sheet, now: int) {
    Win(s).Some? && Win(s).value.start > now
  }

  /** Starts sooner; or at the same moment, with a key no later. */
  predicate SoonerOrTied(a: Sheet, b: Sheet)
    requires Win(a).Some? && Win(b).Some?
  {
    Win(a).value.start < Win(b).value.start || (Win(a).value.start == Win(b).value.start && KeyUpTo(a.key, b.key))
  }

  predicate LaterOrTied(a: Sheet, b: Sheet)
    requires Win(a).Some? && Win(b).Some?
  {
    Win(a).value.end > Win(b).value.end || (Win(a).value.end == Win(b).value.end && KeyUpTo(b.key, a.key))
  }

  /** The next to start, or else the last to have finished, or else the first by date and label. */
  ghost predicate NearestIs(rows: seq<Sheet>, now: int, r: Sheet) {
    && r in rows
    && if exists x :: x in rows && Upcoming(x, now) then
         Upcoming(r, now) && forall x :: x in rows && Upcoming(x, now) ==> SoonerOrTied(r, x)
       else if exists x :: x in rows && Win(x).Some? then
         Win(r).Some? && forall x :: x in rows && Win(x).Some? ==> LaterOrTied(r, x)
       else forall x :: x in rows ==> KeyUpTo(r.key, x.key)
  }

  /** The newest push that covers now, or the nearest. */
  ghost predicate InForceIs(rows: seq<Sheet>, now: int, r: Sheet) {
    && r in rows
    && if exists x :: x in rows && Within(Win(x), now) then
         Within(Win(r), now) && exists i :: 0 <= i < |rows| && rows[i] == r && NoneBefore(rows, i, now)
       else NearestIs(rows, now, r)
  }

  ghost predicate NoneBefore(rows: seq<Sheet>, i: int, now: int)
    requires i <= |rows|
  {
    forall k :: 0 <= k < i ==> !Within(Win(rows[k]), now)
  }

  method Nearest(rows: seq<Sheet>, now: int) returns (r: Sheet)
    requires rows != []
    ensures NearestIs(rows, now, r)
  {
    hide ServiceWindow;
    var soonest, latest, least: Option<Sheet> := None, None, None;
    for i := 0 to |rows|
      invariant i > 0 ==> least.Some?
      invariant least.Some? ==> least.value in rows && forall k :: 0 <= k < i ==> KeyUpTo(least.value.key, rows[k].key)
      invariant soonest == None ==> forall k :: 0 <= k < i ==> !Upcoming(rows[k], now)
      invariant soonest.Some? ==> soonest.value in rows && Upcoming(soonest.value, now)
      invariant soonest.Some? ==> forall k :: 0 <= k < i && Upcoming(rows[k], now) ==>
                SoonerOrTied(soonest.value, rows[k])
      invariant latest == None ==> forall k :: 0 <= k < i ==> Win(rows[k]) == None
      invariant latest.Some? ==> latest.value in rows && Win(latest.value).Some?
      invariant latest.Some? ==> forall k :: 0 <= k < i && Win(rows[k]).Some? ==> LaterOrTied(latest.value, rows[k])
    {
      var x := rows[i];
      if least == None || KeyBefore(x.key, least.value.key) {
        least := Some(x);
      }
      if Win(x).Some? && (latest == None || !LaterOrTied(latest.value, x)) {
        latest := Some(x);
      }
      if Upcoming(x, now) && (soonest == None || !SoonerOrTied(soonest.value, x)) {
        soonest := Some(x);
      }
    }
    r := if soonest.Some? then soonest.value else if latest.Some? then latest.value else least.value;
  }

  /** Dated yesterday, today or tomorrow, as UTC has today. */
  predicate NearToday(s: Sheet, now: int) {
    now / DAY - 1 <= s.key.date <= now / DAY + 1
  }

  function Recent(rows: seq<Sheet>, now: int): seq<Sheet> {
    if rows == [] then []
    else Recent(rows[..|rows| - 1], now) + if NearToday(rows[|rows| - 1], now) then [rows[|rows| - 1]] else []
  }

  /** The order the database is asked for; rows of one push come in any order. */
  ghost predicate NewestFirst(rows: seq<Sheet>) {
    forall i, j :: 0 <= i < j < |rows| ==> rows[i].pushedAt >= rows[j].pushedAt
  }

  /** Of the sheets near today, the one in force; with none near today, whichever row came first. */
  ghost predicate Chosen(rows: seq<Sheet>, now: int, r: Option<Sheet>) {
    if rows == [] then r == None
    else r.Some? && if Recent(rows, now) == [] then r.value == rows[0] else InForceIs(Recent(rows, now), now, r.value)
  }

  lemma {:induction false} RecentHas(rows: seq<Sheet>, now: int)
    ensures forall x :: x in Recent(rows, now) <==> x in rows && NearToday(x, now)
    ensures NewestFirst(rows) ==> NewestFirst(Recent(rows, now))
  {
    if rows != [] {
      var init, last := rows[..|rows| - 1], rows[|rows| - 1];
      assert rows == init + [last];
      RecentHas(init, now);
      var r := Recent(init, now);
      forall i | 0 <= i < |r| && NewestFirst(rows) ensures r[i].pushedAt >= last.pushedAt {
        assert r[i] in init;
        var k :| 0 <= k < |init| && init[k] == r[i];
        assert rows[k] == r[i];
      }
    }
  }

  method RecentOf(rows: seq<Sheet>, now: int) returns (recent: seq<Sheet>)
    ensures recent == Recent(rows, now)
  {
    hide NearToday;
    recent := [];
    for i := 0 to |rows|
      invariant recent == Recent(rows[..i], now)
    {
      assert rows[..i + 1][..i] == rows[..i];
      if NearToday(rows[i], now) {
        recent := recent + [rows[i]];
      }
    }
    assert rows[..|rows|] == rows;
  }

  /** The newest of them that covers now, else the nearest. */
  method CoveringOrNearest(recent: seq<Sheet>, now: int) returns (r: Sheet)
    requires recent != []
    ensures InForceIs(recent, now, r)
  {
    hide NearestIs, ServiceWindow;
    for i := 0 to |recent|
      invariant NoneBefore(recent, i, now)
    {
      if Within(Win(recent[i]), now) {
        return recent[i];
      }
    }
    assert forall x :: x in recent ==> !Within(Win(x), now);
    r := Nearest(recent, now);
    NearestIsThere(recent, now, r);
  }

  /** The service: the newest push that covers now among the sheets near today, else the nearest of them;
      with none near today, the newest push of all. */
  method InForce(rows: seq<Sheet>, now: int) returns (r: Option<Sheet>)
    requires NewestFirst(rows)
    ensures Chosen(rows, now, r)
    ensures forall x :: x in rows && NearToday(x, now) && Within(Win(x), now) ==>
              r.Some? && NearToday(r.value, now) && Within(Win(r.value), now) && r.value.pushedAt >= x.pushedAt
    ensures r.Some? && !NearToday(r.value, now) ==> forall x :: x in rows ==> r.value.pushedAt >= x.pushedAt
  {
    hide InForceIs, ServiceWindow, NearToday, NewestFirst;
    var recent := RecentOf(rows, now);
    RecentHas(rows, now);
    if recent != [] {
      var found := CoveringOrNearest(recent, now);
      CoveringIsNewest(recent, now, found);
      return Some(found);
    }
    if rows == [] {
      return None;
    }
    FirstOfAllIsNewest(rows);
    r := Some(rows[0]);
  }

  lemma CoveringIsNewest(recent: seq<Sheet>, now: int, r: Sheet)
    requires NewestFirst(recent) && InForceIs(recent, now, r)
    ensures r in recent
    ensures forall x :: x in recent && Within(Win(x), now) ==> Within(Win(r), now) && r.pushedAt >= x.pushedAt
  {
    hide ServiceWindow, NearestIs;
    forall x | x in recent && Within(Win(x), now) ensures Within(Win(r), now) && r.pushedAt >= x.pushedAt {
      FirstIsNewest(recent, now, r, x);
    }
  }

  lemma FirstOfAllIsNewest(rows: seq<Sheet>)
    requires NewestFirst(rows) && rows != []
    ensures forall x :: x in rows ==> rows[0].pushedAt >= x.pushedAt
  {
  }

  lemma NearestIsThere(rows: seq<Sheet>, now: int, r: Sheet)
    requires NearestIs(rows, now, r)
    ensures r in rows
  {
  }

  // -------------------------------------------------------- the push server's

  /** No tie-break: the first of the soonest to start, or the first of the last to finish. */
  ghost predicate PickIs(held: seq<Sheet>, now: int, r: Sheet) {
    && r in held
    && if exists x :: x in held && Within(EngineWindow(x), now) then
         exists i :: 0 <= i < |held| && held[i] == r && Within(EngineWindow(r), now)
                     && forall k :: 0 <= k < i ==> !Within(EngineWindow(held[k]), now)
       else if exists x :: x in held && Ahead(x, now) then
         Ahead(r, now) && forall x :: x in held && Ahead(x, now) ==>
              EngineWindow(r).value.start <= EngineWindow(x).value.start
       else if exists x :: x in held && EngineWindow(x).Some? then
         EngineWindow(r).Some? && forall x :: x in held && EngineWindow(x).Some? ==>
              EngineWindow(r).value.end >= EngineWindow(x).value.end
       else r == held[0]
  }

  predicate Ahead(s: Sheet, now: int) {
    EngineWindow(s).Some? && EngineWindow(s).value.start > now
  }

  method Pick(held: seq<Sheet>, now: int) returns (r: Sheet)
    requires held != []
    ensures PickIs(held, now, r)
  {
    hide EngineWindow;
    for i := 0 to |held|
      invariant forall k :: 0 <= k < i ==> !Within(EngineWindow(held[k]), now)
    {
      if Within(EngineWindow(held[i]), now) {
        return held[i];
      }
    }
    var soonest, latest: Option<Sheet> := None, None;
    for i := 0 to |held|
      invariant soonest == None ==> forall k :: 0 <= k < i ==> !Ahead(held[k], now)
      invariant soonest.Some? ==> soonest.value in held && Ahead(soonest.value, now)
      invariant soonest.Some? ==> forall k :: 0 <= k < i && Ahead(held[k], now) ==>
                  EngineWindow(soonest.value).value.start <= EngineWindow(held[k]).value.start
      invariant latest == None ==> forall k :: 0 <= k < i ==> EngineWindow(held[k]) == None
      invariant latest.Some? ==> latest.value in held && EngineWindow(latest.value).Some?
      invariant latest.Some? ==> forall k :: 0 <= k < i && EngineWindow(held[k]).Some? ==>
                  EngineWindow(latest.value).value.end >= EngineWindow(held[k]).value.end
    {
      var x := held[i];
      if EngineWindow(x).Some? && (latest == None || EngineWindow(x).value.end > EngineWindow(latest.value).value.end) {
        latest := Some(x);
      }
      if Ahead(x, now) && (soonest == None || EngineWindow(x).value.start < EngineWindow(soonest.value).value.start) {
        soonest := Some(x);
      }
    }
    r := if soonest.Some? then soonest.value else if latest.Some? then latest.value else held[0];
  }

  // ------------------------------------------------------------- agreement

  /** Two sheets of one push whose windows share an instant are of the same shift. A later push may say
      anything it likes about the same hours. */
  ghost predicate PushesDisjoint(rows: seq<Sheet>) {
    forall x, y :: x in rows && y in rows && x.pushedAt == y.pushedAt && Overlap(x, y) ==> x.key == y.key
  }

  predicate Overlap(x: Sheet, y: Sheet) {
    && Win(x).Some? && Win(y).Some?
    && Win(x).value.start < Win(y).value.end && Win(y).value.start < Win(x).value.end
  }

  ghost predicate SameSheets(a: seq<Sheet>, b: seq<Sheet>) {
    forall x :: x in a <==> x in b
  }

  /** The first that covers now, newest first, is as new as any that covers now. */
  lemma FirstIsNewest(rows: seq<Sheet>, now: int, r: Sheet, x: Sheet)
    requires NewestFirst(rows) && InForceIs(rows, now, r) && x in rows && Within(Win(x), now)
    ensures Within(Win(r), now) && r.pushedAt >= x.pushedAt
  {
    hide ServiceWindow, NearestIs;
    var i :| 0 <= i < |rows| && rows[i] == r && NoneBefore(rows, i, now);
    var k :| 0 <= k < |rows| && rows[k] == x;
  }

  lemma CoveringIsOneShift(a: seq<Sheet>, b: seq<Sheet>, now: int, r: Sheet, q: Sheet, x: Sheet)
    requires SameSheets(a, b) && PushesDisjoint(a) && NewestFirst(a) && NewestFirst(b)
    requires InForceIs(a, now, r) && InForceIs(b, now, q) && x in a && Within(Win(x), now)
    ensures r.key == q.key
  {
    hide ServiceWindow, NearestIs;
    assert r in a && q in a && r in b && q in b;
    FirstIsNewest(a, now, r, x);
    FirstIsNewest(b, now, q, x);
    FirstIsNewest(a, now, r, q);
    FirstIsNewest(b, now, q, r);
    assert Overlap(r, q);
  }

  lemma NearestIsOneShift(a: seq<Sheet>, b: seq<Sheet>, now: int, r: Sheet, q: Sheet)
    requires SameSheets(a, b) && NearestIs(a, now, r) && NearestIs(b, now, q)
    ensures r.key == q.key
  {
    hide ServiceWindow;
    if x :| x in a && Upcoming(x, now) {
      assert x in b;
    } else if x :| x in a && Win(x).Some? {
      assert x in b;
    }
  }

  lemma InForceIsOneShift(a: seq<Sheet>, b: seq<Sheet>, now: int, r: Sheet, q: Sheet)
    requires SameSheets(a, b) && PushesDisjoint(a) && NewestFirst(a) && NewestFirst(b)
    requires InForceIs(a, now, r) && InForceIs(b, now, q)
    ensures r.key == q.key
  {
    hide NearestIs, ServiceWindow, PushesDisjoint, NewestFirst;
    if x :| x in a && Within(Win(x), now) {
      CoveringIsOneShift(a, b, now, r, q, x);
    } else {
      assert forall x :: x in b ==> x in a;
      NearestIsOneShift(a, b, now, r, q);
    }
  }

  /** The newest rows are all of one shift. */
  ghost predicate NewestIsOneShift(rows: seq<Sheet>) {
    forall x :: x in rows && x.pushedAt == rows[0].pushedAt ==> x.key == rows[0].key
  }

  /** Whichever order the database returns the rows of each push in, the shift chosen is the same, so all
      rigs that hold the same sheets agree; provided some sheet is near today, or the newest push has only
      one shift in it. */
  lemma OrderDoesNotMatter(a: seq<Sheet>, b: seq<Sheet>, now: int, r: Option<Sheet>, q: Option<Sheet>)
    requires SameSheets(a, b) && PushesDisjoint(a) && NewestFirst(a) && NewestFirst(b)
    requires Chosen(a, now, r) && Chosen(b, now, q)
    requires Recent(a, now) != [] || NewestIsOneShift(a)
    ensures (r == None <==> q == None) && (r.Some? ==> r.value.key == q.value.key)
  {
    hide InForceIs, Overlap, NearToday;
    RecentHas(a, now);
    RecentHas(b, now);
    EmptyAlike(a, b);
    EmptyAlike(Recent(a, now), Recent(b, now));
    if a == [] {
    } else if Recent(a, now) != [] {
      assert Recent(a, now)[0] in Recent(b, now);
      InForceIsOneShift(Recent(a, now), Recent(b, now), now, r.value, q.value);
    } else {
      assert a[0] in b && b[0] in a;
    }
  }

  lemma EmptyAlike(a: seq<Sheet>, b: seq<Sheet>)
    requires SameSheets(a, b)
    ensures a == [] <==> b == []
  {
    if a != [] {
      assert a[0] in b;
    }
    if b != [] {
      assert b[0] in a;
    }
  }

  /** A row brought to the front. */
  function Fronted(rows: seq<Sheet>, i: nat): seq<Sheet>
    requires i < |rows|
  {
    [rows[i]] + rows[..i] + rows[i + 1..]
  }

  lemma FrontedIsNewestFirst(rows: seq<Sheet>, i: nat)
    requires NewestFirst(rows) && i < |rows| && rows[i].pushedAt == rows[0].pushedAt
    ensures NewestFirst(Fronted(rows, i))
  {
    var b := Fronted(rows, i);
    forall k | 0 <= k < |b| ensures b[k] == rows[if k == 0 then i else if k <= i then k - 1 else k] {
    }
  }

  lemma FrontedHasTheSame(rows: seq<Sheet>, i: nat)
    requires i < |rows|
    ensures multiset(Fronted(rows, i)) == multiset(rows) && SameSheets(rows, Fronted(rows, i))
  {
    var b := Fronted(rows, i);
    assert rows == rows[..i] + [rows[i]] + rows[i + 1..];
    assert multiset(b) == multiset(rows);
    assert forall x :: (x in b <==> x in multiset(b)) && (x in rows <==> x in multiset(rows));
  }

  /** Otherwise it does matter: with nothing near today and two shifts in the newest push, another order
      the database may as well return gives another shift. */
  lemma OldSheetsDependOnOrder(a: seq<Sheet>, now: int) returns (b: seq<Sheet>, r: Sheet, q: Sheet)
    requires NewestFirst(a) && a != [] && Recent(a, now) == [] && !NewestIsOneShift(a)
    ensures NewestFirst(b) && multiset(b) == multiset(a)
    ensures Chosen(a, now, Some(r)) && Chosen(b, now, Some(q)) && r.key != q.key
  {
    hide InForceIs, NearToday, NewestFirst;
    q :| q in a && q.pushedAt == a[0].pushedAt && q.key != a[0].key;
    var i :| 0 <= i < |a| && a[i] == q;
    r, b := a[0], Fronted(a, i);
    FrontedIsNewestFirst(a, i);
    FrontedHasTheSame(a, i);
    RecentHas(a, now);
    RecentHas(b, now);
    EmptyAlike(Recent(a, now), Recent(b, now));
  }

  /** Sheets of one push near today, each with its ends and its zone written: no two start, end or run
      together. */
  ghost predicate OnePush(rows: seq<Sheet>, now: int) {
    && (forall x :: x in rows ==> WellWritten(x) && x.start.Some? && x.end.Some? && x.tz.Some? && NearToday(x, now))
    && (forall x, y :: x in rows && y in rows && x != y ==>
          && x.pushedAt == y.pushedAt && !Overlap(x, y)
          && Win(x).value.start != Win(y).value.start && Win(x).value.end != Win(y).value.end)
  }

  lemma OnePushReadsAlike(rows: seq<Sheet>, now: int, x: Sheet)
    requires OnePush(rows, now) && x in rows
    ensures Win(x).Some? && EngineWindow(x) == Win(x)
  {
    WindowsAgreeIff(x, 0);
  }

  lemma {:induction false} AllRecent(rows: seq<Sheet>, now: int)
    requires forall x :: x in rows ==> NearToday(x, now)
    ensures Recent(rows, now) == rows
  {
    hide NearToday;
    if rows != [] {
      assert rows == rows[..|rows| - 1] + [rows[|rows| - 1]];
      AllRecent(rows[..|rows| - 1], now);
    }
  }

  /** The service and the push server choose the same sheet out of one push, in whatever order each has it. */
  lemma ServiceAndServerAgree(rows: seq<Sheet>, held: seq<Sheet>, now: int, r: Sheet, q: Sheet)
    requires SameSheets(rows, held) && OnePush(rows, now) && rows != []
    requires Chosen(rows, now, Some(r)) && PickIs(held, now, q)
    ensures r == q
  {
    hide ServiceWindow, EngineWindow, Overlap, NearestIs;
    AllRecent(rows, now);
    forall x | x in rows ensures Win(x).Some? && EngineWindow(x) == Win(x) {
      OnePushReadsAlike(rows, now, x);
    }
    if x :| x in rows && Within(Win(x), now) {
      assert x in held && Within(EngineWindow(x), now);
      assert Overlap(r, q) by { BothCover(r, q, now); }
    } else {
      assert forall x :: x in held ==> !Within(EngineWindow(x), now);
      assert r in rows && q in rows;
      NearestAgrees(rows, held, now, r, q);
    }
  }

  lemma BothCover(r: Sheet, q: Sheet, now: int)
    requires Within(Win(r), now) && Within(Win(q), now)
    ensures Overlap(r, q)
  {
  }

  lemma NearestAgrees(rows: seq<Sheet>, held: seq<Sheet>, now: int, r: Sheet, q: Sheet)
    requires SameSheets(rows, held) && OnePush(rows, now) && NearestIs(rows, now, r) && PickIs(held, now, q)
    requires forall x :: x in rows ==> Win(x).Some? && EngineWindow(x) == Win(x) && !Within(Win(x), now)
    ensures r == q
  {
    hide ServiceWindow, EngineWindow, Overlap;
    assert q in rows && r in held;
    if x :| x in rows && Upcoming(x, now) {
      assert x in held && Ahead(x, now);
      assert Ahead(q, now) && Upcoming(q, now) && Ahead(r, now);
      assert SoonerOrTied(r, q);
    } else {
      assert forall x :: x in held ==> !Ahead(x, now) by {
        forall x | x in held ensures !Ahead(x, now) {
          assert x in rows && !Upcoming(x, now);
        }
      }
      assert LaterOrTied(r, q);
    }
  }

  // ----------------------------------------------------------- the three shifts

  /** The three shifts of a date, as the desk writes them. */
  function ShiftStart(shift: nat): nat {
    if shift == 0 then 480 else if shift == 1 then 960 else 0
  }

  function DaySheet(date: int, shift: nat, offset: int): Sheet {
    Sheet(Key(date, shift), Some(ShiftStart(shift)), Some((ShiftStart(shift) + SHIFT_MINUTES) % DAY), Some(offset), 0)
  }

  /** Exactly one of a date's three shifts covers each instant of that date, and none covers any other. */
  lemma ThreeShiftsTileTheDay(date: int, offset: int, now: int, shift: nat)
    requires shift < 3
    ensures var minute := now - Instant(date, 0, offset);
            Within(Win(DaySheet(date, shift, offset)), now) <==>
              0 <= minute < DAY && shift == (if minute < 480 then 2 else if minute < 960 then 0 else 1)
  {
  }

  // -------------------------------------------------------- the wall clock

  /** What the floor's clock reads at an instant, in a zone so many minutes ahead of UTC. */
  function FloorDate(now: int, ahead: int): int {
    (now + ahead) / DAY
  }

  function FloorMinute(now: int, ahead: int): int {
    (now + ahead) % DAY
  }

  lemma ClockReads(date: int, minute: nat, ahead: int)
    requires minute < DAY
    ensures FloorDate(Instant(date, minute, ahead), ahead) == date
    ensures FloorMinute(Instant(date, minute, ahead), ahead) == minute
  {
  }

  /** A window opens when the floor's clock reads the sheet's date and start, and closes within a day, when it
      reads the sheet's end; a sheet with no end closes after eight hours, and one with no zone keeps UTC. */
  lemma WindowReadsTheWall(s: Sheet)
    requires WellWritten(s) && s.start.Some?
    ensures var ahead, w := if s.tz.Some? then s.tz.value else 0, EngineWindow(s);
            && w.Some? && 0 < w.value.end - w.value.start <= DAY
            && FloorDate(w.value.start, ahead) == s.key.date && FloorMinute(w.value.start, ahead) == s.start.value
            && match s.end
               case Some(end) => FloorMinute(w.value.end, ahead) == end
               case None => w.value.end - w.value.start == 480
  {
    var ahead := if s.tz.Some? then s.tz.value else 0;
    ClockReads(s.key.date, s.start.value, ahead);
    if s.end.Some? {
      var d := s.end.value - s.start.value;
      assert (d + DAY) % DAY == if d < 0 then d + DAY else d;
      var end := if d <= 0 then s.key.date + 1 else s.key.date;
      assert EngineWindow(s).value.end == Instant(end, s.end.value, ahead);
      ClockReads(end, s.end.value, ahead);
    }
  }

  /** The service reads the same window, whatever the sheet says of its zone, as soon as it says where it ends. */
  lemma ServiceReadsTheSameIff(s: Sheet)
    requires WellWritten(s)
    ensures Win(s) == EngineWindow(s) <==> s.start == None || s.end.Some?
  {
    WindowsAgreeIff(s, 0);
  }

  /** East of UTC the same wall time comes earlier. */
  lemma EastIsEarlier(date: int, minute: int, hours: int)
    ensures Instant(date, minute, 60 * hours) == Instant(date, minute, 0) - 60 * hours
  {
  }

  /** Looking a day either way misses nothing in force exactly when the window lies between the start of the
      day before its date and the end of the day after; so nothing the desk writes, wherever the floor is. */
  lemma NothingInForceIsMissedIff(s: Sheet)
    requires Win(s).Some? && WellWritten(s)
    ensures (forall now :: Within(Win(s), now) ==> NearToday(s, now)) <==>
              (s.key.date - 1) * DAY <= Win(s).value.start && Win(s).value.end <= (s.key.date + 2) * DAY
  {
    var w, d := Win(s).value, s.key.date;
    assert w.start < w.end;
    if (d - 1) * DAY <= w.start && w.end <= (d + 2) * DAY {
      forall now | Within(Win(s), now) ensures NearToday(s, now) {
        DayOfInstant(now, d - 1, d + 2);
      }
    } else {
      assert Within(Win(s), w.start) && Within(Win(s), w.end - 1);
      DayOfInstant(w.start, d - 1, d + 2);
      DayOfInstant(w.end - 1, d - 1, d + 2);
      assert !NearToday(s, w.start) || !NearToday(s, w.end - 1);
    }
  }

  lemma DayOfInstant(now: int, first: int, past: int)
    ensures first * DAY <= now <==> first <= now / DAY
    ensures now < past * DAY <==> now / DAY < past
  {
  }

  lemma DeskSheetsAreFound(date: int, shift: nat, offset: int, now: int)
    requires shift < 3 && -DAY <= offset <= DAY && Within(Win(DaySheet(date, shift, offset)), now)
    ensures NearToday(DaySheet(date, shift, offset), now)
  {
    NothingInForceIsMissedIff(DaySheet(date, shift, offset));
  }

  /** Ties go by date and then label: the earliest of those that start together, the latest of those that
      finished together, the earliest of those with no window. */
  lemma TiesGoByDateAndLabel(rows: seq<Sheet>, now: int, r: Sheet, x: Sheet)
    requires NearestIs(rows, now, r) && x in rows && x.key != r.key
    ensures Upcoming(r, now) && Upcoming(x, now) && Win(x).value.start == Win(r).value.start ==>
              r.key.date < x.key.date || (r.key.date == x.key.date && r.key.shift < x.key.shift)
    ensures !Upcoming(r, now) && Win(r).Some? && Win(x).Some? && Win(x).value.end == Win(r).value.end ==>
              x.key.date < r.key.date || (x.key.date == r.key.date && x.key.shift < r.key.shift)
    ensures Win(r) == None ==> r.key.date < x.key.date || (r.key.date == x.key.date && r.key.shift < x.key.shift)
  {
    hide ServiceWindow;
    if Upcoming(r, now) && Upcoming(x, now) {
      assert SoonerOrTied(r, x);
    }
    if !Upcoming(r, now) && Win(r).Some? && Win(x).Some? {
      assert LaterOrTied(r, x);
    }
  }
}
