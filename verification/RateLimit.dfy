/** A token bucket a key: how many calls a rig may make, and when it may make the next. */
module RateLimit {
  import opened Options

  const MAX_TRACKED := 4096

  datatype Bucket = Bucket(tokens: real, last: real)

  // `burst` as given; none, or one not positive, means a minute's worth.
  datatype Limits = Limits(perMinute: real, burst: int) {
    predicate Enabled() {
      perMinute > 0.0
    }

    function Burst(): (b: real)
      ensures b >= 1.0
    {
      if burst > 0 then burst as real else if perMinute > 1.0 then perMinute else 1.0
    }

    function Rate(): real {
      perMinute / 60.0
    }
  }

  datatype Call = Call(key: nat, at: real)

  /** A bucket brought up to now. A clock that has run back refills nothing. */
  function Refilled(l: Limits, b: Bucket, now: real): Bucket {
    var elapsed := if now > b.last then now - b.last else 0.0;
    var tokens := b.tokens + elapsed * l.Rate();
    Bucket(if tokens < l.Burst() then tokens else l.Burst(), now)
  }

  function BucketOf(l: Limits, buckets: map<nat, Bucket>, key: nat, now: real): Bucket {
    if key in buckets then Refilled(l, buckets[key], now) else Bucket(l.Burst(), now)
  }

  predicate NoRoom(buckets: map<nat, Bucket>, key: nat) {
    key !in buckets && |buckets| >= MAX_TRACKED
  }

  /** The buckets after a call, and how long the caller is told to wait; 0 is yes. */
  function Allowed(l: Limits, buckets: map<nat, Bucket>, key: nat, now: real): (map<nat, Bucket>, real) {
    if !l.Enabled() then (buckets, 0.0)
    else if NoRoom(buckets, key) then (buckets, 60.0)
    else
      var b := BucketOf(l, buckets, key, now);
      if b.tokens >= 1.0 then (buckets[key := b.(tokens := b.tokens - 1.0)], 0.0)
      else (buckets[key := b], (1.0 - b.tokens) / l.Rate())
  }

  class RateLimiter {
    const limits: Limits
    var buckets: map<nat, Bucket>

    ghost predicate Valid()
      reads this
    {
      |buckets| <= MAX_TRACKED
    }

    constructor (limits: Limits)
      ensures Valid() && this.limits == limits && buckets == map[]
    {
      this.limits, buckets := limits, map[];
    }

    method Allow(key: nat, now: real) returns (wait: real)
      requires Valid()
      modifies this
      ensures Valid() && (buckets, wait) == Allowed(limits, old(buckets), key, now)
    {
      ghost var before := buckets;
      assert 0.0 * limits.Rate() == 0.0;
      if !limits.Enabled() {
        return 0.0;
      }
      var bucket: Bucket;
      if key in buckets {
        bucket := buckets[key];
      } else {
        if |buckets| >= MAX_TRACKED {
          return 60.0;
        }
        bucket := Bucket(limits.Burst(), now);
        NewKeyIsOneMore(buckets, key, bucket);
        buckets := buckets[key := bucket];
      }
      var elapsed := if now > bucket.last then now - bucket.last else 0.0;
      var tokens := bucket.tokens + elapsed * limits.Rate();
      bucket := Bucket(if tokens < limits.Burst() then tokens else limits.Burst(), now);
      KnownKeyIsNoMore(buckets, key, bucket);
      KnownKeyIsNoMore(buckets, key, bucket.(tokens := bucket.tokens - 1.0));
      assert bucket == BucketOf(limits, before, key, now);
      var spent := bucket.(tokens := bucket.tokens - 1.0);
      assert buckets[key := bucket] == before[key := bucket] && buckets[key := spent] == before[key := spent];
      if bucket.tokens >= 1.0 {
        buckets := buckets[key := spent];
        wait := 0.0;
      } else {
        buckets := buckets[key := bucket];
        wait := (1.0 - bucket.tokens) / limits.Rate();
      }
    }
  }

  lemma NewKeyIsOneMore(m: map<nat, Bucket>, key: nat, b: Bucket)
    requires key !in m
    ensures |m[key := b]| == |m| + 1
  {
    assert m[key := b].Keys == m.Keys + {key};
  }

  lemma KnownKeyIsNoMore(m: map<nat, Bucket>, key: nat, b: Bucket)
    requires key in m
    ensures |m[key := b]| == |m|
  {
    assert m[key := b].Keys == m.Keys;
  }

  // ---------------------------------------------------------------- runs

  function After(l: Limits, buckets: map<nat, Bucket>, calls: seq<Call>): map<nat, Bucket>
    decreases |calls|
  {
    if calls == [] then buckets else After(l, Allowed(l, buckets, calls[0].key, calls[0].at).0, calls[1..])
  }

  /** How many of the calls of one key are let through. */
  function Admitted(l: Limits, buckets: map<nat, Bucket>, calls: seq<Call>, key: nat): nat
    decreases |calls|
  {
    if calls == [] then 0
    else
      var (next, wait) := Allowed(l, buckets, calls[0].key, calls[0].at);
      (if calls[0].key == key && wait == 0.0 then 1 else 0) + Admitted(l, next, calls[1..], key)
  }

  /** A clock that does not run backwards. */
  ghost predicate InOrder(calls: seq<Call>, from: real, to: real) {
    && from <= to
    && (forall i :: 0 <= i < |calls| ==> from <= calls[i].at <= to)
    && (forall i, j :: 0 <= i < j < |calls| ==> calls[i].at <= calls[j].at)
  }

  /** No bucket is over its burst, in debt, or from the future. */
  ghost predicate Sound(l: Limits, buckets: map<nat, Bucket>, now: real) {
    forall key :: key in buckets ==> 0.0 <= buckets[key].tokens <= l.Burst() && buckets[key].last <= now
  }

  lemma NotLess(a: real, b: real, rate: real)
    requires a <= b && rate >= 0.0
    ensures a * rate <= b * rate
  {
  }

  lemma Spread(a: real, b: real, rate: real)
    ensures (a + b) * rate == a * rate + b * rate
  {
  }

  lemma RefillIs(l: Limits, b: Bucket, now: real)
    requires l.Enabled() && 0.0 <= b.tokens <= l.Burst() && b.last <= now
    ensures var t := Refilled(l, b, now).tokens;
            && 0.0 <= t <= l.Burst() && t <= b.tokens + (now - b.last) * l.Rate()
            && (b.tokens + (now - b.last) * l.Rate() <= l.Burst() ==> t == b.tokens + (now - b.last) * l.Rate())
            && (b.tokens + (now - b.last) * l.Rate() >= l.Burst() ==> t == l.Burst())
  {
    hide Limits.Burst, Limits.Rate;
    assert l.Rate() > 0.0 by { RateIsPositive(l); }
    NotLess(0.0, now - b.last, l.Rate());
    assert now == b.last ==> (now - b.last) * l.Rate() == 0.0 * l.Rate();
  }

  /** Time in two stretches brings what each brings. */
  lemma Stretches(a: real, b: real, c: real, rate: real)
    ensures (c - a) * rate == (b - a) * rate + (c - b) * rate
  {
    Spread(b - a, c - b, rate);
    assert (b - a) + (c - b) == c - a;
  }

  lemma StaysSound(l: Limits, buckets: map<nat, Bucket>, key: nat, now: real)
    requires l.Enabled() && Sound(l, buckets, now)
    ensures Sound(l, Allowed(l, buckets, key, now).0, now)
  {
    hide Limits.Burst, Refilled, Limits.Rate;
    if key in buckets {
      RefillIs(l, buckets[key], now);
      assert Refilled(l, buckets[key], now).last == now by { LastIsNow(l, buckets[key], now); }
    }
  }

  lemma LastIsNow(l: Limits, b: Bucket, now: real)
    ensures Refilled(l, b, now).last == now
  {
  }

  /** What a key could spend at once, were it to call now. */
  function Credit(l: Limits, buckets: map<nat, Bucket>, key: nat, now: real): real {
    BucketOf(l, buckets, key, now).tokens
  }

  lemma GrowsByTheTime(tokens: real, last: real, now: real, later: real, rate: real, burst: real, t: real, u: real)
    requires rate > 0.0 && now <= later
    requires tokens + (now - last) * rate <= burst ==> t == tokens + (now - last) * rate
    requires tokens + (now - last) * rate >= burst ==> t == burst
    requires u <= burst && u <= tokens + (later - last) * rate
    ensures u <= t + (later - now) * rate
  {
    var before, after, all := (now - last) * rate, (later - now) * rate, (later - last) * rate;
    Stretches(last, now, later, rate);
    NotLess(0.0, later - now, rate);
    assert all == before + after && after >= 0.0;
  }

  lemma CreditGrows(l: Limits, buckets: map<nat, Bucket>, key: nat, now: real, later: real)
    requires l.Enabled() && Sound(l, buckets, now) && now <= later
    ensures 0.0 <= Credit(l, buckets, key, later) <= l.Burst()
    ensures Credit(l, buckets, key, later) <= Credit(l, buckets, key, now) + (later - now) * l.Rate()
  {
    hide Limits.Burst, Limits.Rate, Refilled;
    assert l.Rate() > 0.0 by { RateIsPositive(l); }
    NotLess(0.0, later - now, l.Rate());
    if key in buckets {
      RefillIs(l, buckets[key], now);
      RefillIs(l, buckets[key], later);
      var b := buckets[key];
      GrowsByTheTime(b.tokens, b.last, now, later, l.Rate(), l.Burst(), Refilled(l, b, now).tokens,
                     Refilled(l, b, later).tokens);
    }
  }

  lemma RateIsPositive(l: Limits)
    requires l.Enabled()
    ensures l.Rate() > 0.0
  {
  }

  /** A call spends one of its key's credit when it is let through, and nobody else's. */
  lemma CallSpends(l: Limits, buckets: map<nat, Bucket>, caller: nat, now: real, key: nat)
    requires l.Enabled() && Sound(l, buckets, now)
    ensures var (next, wait) := Allowed(l, buckets, caller, now);
            Credit(l, next, key, now)
              <= Credit(l, buckets, key, now) - if caller == key && wait == 0.0 then 1.0 else 0.0
  {
    hide Limits.Burst, Limits.Rate, Refilled;
    var (next, wait) := Allowed(l, buckets, caller, now);
    assert l.Rate() > 0.0 by { RateIsPositive(l); }
    if caller == key && !NoRoom(buckets, key) {
      var b := BucketOf(l, buckets, key, now);
      if key in buckets {
        RefillIs(l, buckets[key], now);
        LastIsNow(l, buckets[key], now);
      }
      assert next[key].last == now;
      RefillNow(l, next[key], now);
      if b.tokens < 1.0 {
        WaitIsPositive(1.0 - b.tokens, l.Rate());
      }
    }
  }

  lemma RefillNow(l: Limits, b: Bucket, now: real)
    requires b.last == now && b.tokens <= l.Burst()
    ensures Refilled(l, b, now).tokens == b.tokens
  {
    hide Limits.Burst, Limits.Rate;
    assert 0.0 * l.Rate() == 0.0;
  }

  lemma WaitIsPositive(short: real, rate: real)
    requires short > 0.0 && rate > 0.0
    ensures short / rate > 0.0
  {
    assert short / rate * rate == short;
    if short / rate <= 0.0 {
      NotLess(short / rate, 0.0, rate);
    }
  }

  /** Whatever was called before and whoever else calls, one key is let through at most its burst, and
      its rate times the time, in any stretch of time. */
  lemma {:induction false} WindowBound(l: Limits, buckets: map<nat, Bucket>, calls: seq<Call>, key: nat, from: real,
                                       to: real)
    requires l.Enabled() && Sound(l, buckets, from) && InOrder(calls, from, to)
    ensures Admitted(l, buckets, calls, key) as real <= Credit(l, buckets, key, from) + (to - from) * l.Rate()
    ensures Admitted(l, buckets, calls, key) as real <= l.Burst() + (to - from) * l.Rate()
    decreases |calls|
  {
    hide Limits.Burst, Limits.Rate, Allowed, Credit;
    CreditGrows(l, buckets, key, from, from);
    CreditGrows(l, buckets, key, from, to);
    if calls != [] {
      var at := calls[0].at;
      var (next, wait) := Allowed(l, buckets, calls[0].key, at);
      CreditGrows(l, buckets, key, from, at);
      assert Sound(l, buckets, at);
      CallSpends(l, buckets, calls[0].key, at, key);
      StaysSound(l, buckets, calls[0].key, at);
      WindowBound(l, next, calls[1..], key, at, to);
      Spread(at - from, to - at, l.Rate());
    } else {
      assert l.Rate() > 0.0 by { RateIsPositive(l); }
      NotLess(0.0, to - from, l.Rate());
    }
  }

  // ------------------------------------------------------------- the retry

  /** This key is short of one token by exactly what the time until `due` will bring. */
  ghost predicate DueAt(l: Limits, buckets: map<nat, Bucket>, key: nat, due: real) {
    key in buckets && buckets[key].tokens + (due - buckets[key].last) * l.Rate() == 1.0
  }

  lemma RefusedIsDue(l: Limits, buckets: map<nat, Bucket>, key: nat, now: real)
    requires l.Enabled() && Sound(l, buckets, now) && !NoRoom(buckets, key) && Allowed(l, buckets, key, now).1 > 0.0
    ensures var (next, wait) := Allowed(l, buckets, key, now);
            DueAt(l, next, key, now + wait) && next[key].last == now
  {
    hide Limits.Burst, Limits.Rate, Refilled;
    if key in buckets {
      LastIsNow(l, buckets[key], now);
    }
    assert l.Rate() > 0.0 by { RateIsPositive(l); }
    var b := BucketOf(l, buckets, key, now);
    assert (1.0 - b.tokens) / l.Rate() * l.Rate() == 1.0 - b.tokens;
  }

  lemma ShortUntilDue(tokens: real, last: real, at: real, due: real, rate: real)
    requires rate > 0.0 && at < due && tokens + (due - last) * rate == 1.0
    ensures tokens + (at - last) * rate < 1.0 && tokens + (at - last) * rate + (due - at) * rate == 1.0
  {
    var before, after, all := (at - last) * rate, (due - at) * rate, (due - last) * rate;
    Stretches(last, at, due, rate);
    MoreThanNothing(due - at, rate);
    assert all == before + after && after > 0.0;
  }

  lemma TooSoonIsRefused(l: Limits, buckets: map<nat, Bucket>, key: nat, caller: nat, at: real, due: real)
    requires l.Enabled() && Sound(l, buckets, at) && DueAt(l, buckets, key, due) && at < due
    ensures DueAt(l, Allowed(l, buckets, caller, at).0, key, due)
    ensures caller == key ==> Allowed(l, buckets, caller, at).1 > 0.0
  {
    hide Limits.Burst, Limits.Rate, Refilled;
    assert l.Rate() > 0.0 by { RateIsPositive(l); }
    assert l.Burst() >= 1.0;
    if caller == key {
      var b := buckets[key];
      ShortUntilDue(b.tokens, b.last, at, due, l.Rate());
      assert b.tokens + (at - b.last) * l.Rate() < 1.0;
      RefillIs(l, b, at);
      LastIsNow(l, b, at);
      assert Refilled(l, b, at).tokens + (due - at) * l.Rate() == 1.0;
      WaitIsPositive(1.0 - Refilled(l, b, at).tokens, l.Rate());
    }
  }

  lemma MoreThanNothing(a: real, rate: real)
    requires a > 0.0 && rate > 0.0
    ensures a * rate > 0.0
  {
  }

  /** None of the key's calls is let through before it is due, and none of them puts it off. */
  lemma {:induction false} CallsBetweenChangeNothing(l: Limits, buckets: map<nat, Bucket>, calls: seq<Call>, key: nat,
                                                     from: real, due: real)
    requires l.Enabled() && Sound(l, buckets, from) && DueAt(l, buckets, key, due) && InOrder(calls, from, due)
    requires forall i :: 0 <= i < |calls| ==> calls[i].at < due
    ensures Admitted(l, buckets, calls, key) == 0
    ensures DueAt(l, After(l, buckets, calls), key, due) && Sound(l, After(l, buckets, calls), due)
    decreases |calls|
  {
    hide Limits.Burst, Limits.Rate, Allowed, DueAt;
    if calls != [] {
      var at := calls[0].at;
      assert Sound(l, buckets, at);
      TooSoonIsRefused(l, buckets, key, calls[0].key, at, due);
      StaysSound(l, buckets, calls[0].key, at);
      CallsBetweenChangeNothing(l, Allowed(l, buckets, calls[0].key, at).0, calls[1..], key, at, due);
    }
  }

  /** A caller told to wait, and tracked, is let through once it has waited, whatever it and everybody
      else asked in between; and not before. */
  lemma WaitingIsEnough(l: Limits, buckets: map<nat, Bucket>, key: nat, now: real, between: seq<Call>)
    requires l.Enabled() && Sound(l, buckets, now) && !NoRoom(buckets, key) && Allowed(l, buckets, key, now).1 > 0.0
    requires var (refused, wait) := Allowed(l, buckets, key, now);
             InOrder(between, now, now + wait) && forall i :: 0 <= i < |between| ==> between[i].at < now + wait
    ensures var (refused, wait) := Allowed(l, buckets, key, now);
            && Admitted(l, refused, between, key) == 0
            && Allowed(l, After(l, refused, between), key, now + wait).1 == 0.0
  {
    hide Limits.Burst, Limits.Rate, After, Admitted, Sound;
    var (refused, wait) := Allowed(l, buckets, key, now);
    RefusedIsDue(l, buckets, key, now);
    StaysSound(l, buckets, key, now);
    CallsBetweenChangeNothing(l, refused, between, key, now, now + wait);
    DueIsLetThrough(l, After(l, refused, between), key, now + wait);
  }

  lemma DueIsLetThrough(l: Limits, buckets: map<nat, Bucket>, key: nat, due: real)
    requires l.Enabled() && Sound(l, buckets, due) && DueAt(l, buckets, key, due)
    ensures Allowed(l, buckets, key, due).1 == 0.0
  {
    hide Limits.Burst, Limits.Rate, Refilled;
    assert l.Burst() >= 1.0;
    RefillIs(l, buckets[key], due);
  }

  lemma NoRoomStays(l: Limits, buckets: map<nat, Bucket>, key: nat, other: nat, now: real)
    requires l.Enabled() && NoRoom(buckets, key)
    ensures Allowed(l, buckets, key, now) == (buckets, 60.0) && NoRoom(Allowed(l, buckets, other, now).0, key)
  {
    hide Limits.Burst, Limits.Rate;
    var b := BucketOf(l, buckets, other, now);
    if other in buckets {
      KnownKeyIsNoMore(buckets, other, b);
      KnownKeyIsNoMore(buckets, other, b.(tokens := b.tokens - 1.0));
    }
  }

  /** A caller told to wait because too many others are tracked is told a minute every time, and is never
      let through, whoever calls and however long it waits. */
  lemma {:induction false} NoRoomIsForEver(l: Limits, buckets: map<nat, Bucket>, calls: seq<Call>, key: nat, now: real)
    requires l.Enabled() && key !in buckets && |buckets| >= 4096
    ensures Admitted(l, buckets, calls, key) == 0
    ensures Allowed(l, After(l, buckets, calls), key, now).1 == 60.0
    decreases |calls|
  {
    hide Limits.Burst, Limits.Rate, Allowed;
    NoRoomStays(l, buckets, key, key, now);
    if calls != [] {
      NoRoomStays(l, buckets, key, calls[0].key, calls[0].at);
      NoRoomIsForEver(l, Allowed(l, buckets, calls[0].key, calls[0].at).0, calls[1..], key, now);
    }
  }

  // ------------------------------------------------------- at one moment

  function Together(key: nat, at: real, n: nat): (calls: seq<Call>)
    ensures |calls| == n && forall i :: 0 <= i < n ==> calls[i] == Call(key, at)
  {
    seq(n, i requires 0 <= i < n => Call(key, at))
  }

  function LeastOf(a: int, b: int): int {
    if a < b then a else b
  }

  lemma OneOfTogether(l: Limits, buckets: map<nat, Bucket>, key: nat, at: real)
    requires l.Enabled() && key in buckets && buckets[key].last == at && buckets[key].tokens <= l.Burst()
    ensures var (next, wait) := Allowed(l, buckets, key, at);
            && key in next && next[key].last == at
            && (wait == 0.0 <==> buckets[key].tokens >= 1.0)
            && next[key].tokens == buckets[key].tokens - (if buckets[key].tokens >= 1.0 then 1.0 else 0.0)
  {
    hide Limits.Burst, Limits.Rate;
    assert l.Rate() > 0.0 by { RateIsPositive(l); }
    assert 0.0 * l.Rate() == 0.0;
    var b := buckets[key];
    if b.tokens < 1.0 {
      WaitIsPositive(1.0 - b.tokens, l.Rate());
    }
  }

  /** Calls made together are let through as far as there are whole tokens. */
  lemma {:induction false} TogetherTakesTheTokens(l: Limits, buckets: map<nat, Bucket>, key: nat, at: real, n: nat)
    requires l.Enabled() && key in buckets && buckets[key].last == at && 0.0 <= buckets[key].tokens <= l.Burst()
    ensures Admitted(l, buckets, Together(key, at, n), key) == LeastOf(n, buckets[key].tokens.Floor)
    decreases n
  {
    hide Limits.Burst, Limits.Rate, Allowed;
    var calls := Together(key, at, n);
    if n > 0 {
      OneOfTogether(l, buckets, key, at);
      assert calls[1..] == Together(key, at, n - 1);
      TogetherTakesTheTokens(l, Allowed(l, buckets, key, at).0, key, at, n - 1);
    }
  }

  /** A key not seen before can spend its whole burst at once, and no more: the burst as given, or without one
      a minute's worth and at least one. */
  lemma NewKeyHasItsBurst(l: Limits, buckets: map<nat, Bucket>, key: nat, at: real, n: nat)
    requires l.perMinute > 0.0 && key !in buckets && |buckets| < 4096
    ensures Admitted(l, buckets, Together(key, at, n), key) ==
              LeastOf(n, if l.burst > 0 then l.burst else if l.perMinute >= 1.0 then l.perMinute.Floor else 1)
  {
    hide Limits.Rate;
    var calls, burst := Together(key, at, n), l.Burst();
    if n > 0 {
      var b := Bucket(burst - 1.0, at);
      assert Allowed(l, buckets, key, at) == (buckets[key := b], 0.0);
      assert calls[1..] == Together(key, at, n - 1);
      TogetherTakesTheTokens(l, buckets[key := b], key, at, n - 1);
    }
  }

  /** A limiter that is off lets everything through and keeps nothing. */
  lemma {:induction false} OffLetsAllThrough(l: Limits, buckets: map<nat, Bucket>, key: nat, at: real, n: nat)
    requires l.perMinute <= 0.0
    ensures Admitted(l, buckets, Together(key, at, n), key) == n && After(l, buckets, Together(key, at, n)) == buckets
    decreases n
  {
    if n > 0 {
      assert Together(key, at, n)[1..] == Together(key, at, n - 1);
      OffLetsAllThrough(l, buckets, key, at, n - 1);
    }
  }
}
