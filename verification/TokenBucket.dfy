/** The authentication limit: one token bucket row, refilled lazily by the statement that takes a
    token from it. Times are seconds; a rejected attempt leaves the row alone. */
module TokenBucket {

  datatype Bucket = Absent | Row(tokens: real, updated: real)

  /** `burst` tokens at most, `rate` tokens per second. */
  datatype Policy = Policy(burst: int, perMinute: int)

  ghost predicate Valid(p: Policy) {
    1 <= p.burst <= 20 && p.perMinute >= 1
  }

  function Rate(p: Policy): real {
    p.perMinute as real / 60.0
  }

  /** Tokens gained in a span of time. */
  function Gain(span: real, p: Policy): real {
    span * Rate(p)
  }

  lemma GainAdds(x: real, y: real, p: Policy)
    ensures Gain(x + y, p) == Gain(x, p) + Gain(y, p) && Gain(0.0, p) == 0.0
  {
  }

  lemma GainGrows(x: real, y: real, p: Policy)
    requires Valid(p) && x <= y
    ensures Gain(x, p) <= Gain(y, p) && Gain(0.0, p) == 0.0
  {
    var r := Rate(p);
    assert r > 0.0;
    assert (y - x) * r >= 0.0;
    assert y * r == x * r + (y - x) * r;
  }

  function Least(a: real, b: real): real {
    if a <= b then a else b
  }

  /** What the row holds at a time, after refilling; a clock that went back refills nothing. */
  function Level(b: Bucket, at: real, p: Policy): real {
    if b.Absent? then p.burst as real
    else Least(p.burst as real, b.tokens + Gain(if at > b.updated then at - b.updated else 0.0, p))
  }

  /** One attempt. The statement reads the clock for its condition, for the new level, and for the
      new time stamp: three readings, in that order. */
  datatype Attempt = Attempt(tested: real, taken: real, stamped: real)

  predicate Admits(b: Bucket, a: Attempt, p: Policy) {
    b.Absent? || Level(b, a.tested, p) >= 1.0
  }

  function Try(b: Bucket, a: Attempt, p: Policy): Bucket {
    if b.Absent? then Row(p.burst as real - 1.0, a.stamped)
    else if Admits(b, a, p) then Row(Level(b, a.taken, p) - 1.0, a.stamped)
    else b
  }

  // ---------------------------------------------------------------- histories

  /** The clock does not go back, within an attempt or between attempts. */
  ghost predicate Ordered(from: real, attempts: seq<Attempt>)
    decreases |attempts|
  {
    attempts == [] ||
    (var a := attempts[0];
     from <= a.tested <= a.taken <= a.stamped && Ordered(a.stamped, attempts[1..]))
  }

  function After(b: Bucket, attempts: seq<Attempt>, p: Policy): Bucket
    decreases |attempts|
  {
    if attempts == [] then b else After(Try(b, attempts[0], p), attempts[1..], p)
  }

  function Admitted(b: Bucket, attempts: seq<Attempt>, p: Policy): nat
    decreases |attempts|
  {
    if attempts == [] then 0
    else (if Admits(b, attempts[0], p) then 1 else 0) + Admitted(Try(b, attempts[0], p), attempts[1..], p)
  }

  function Last(from: real, attempts: seq<Attempt>): real
    decreases |attempts|
  {
    if attempts == [] then from else Last(attempts[0].stamped, attempts[1..])
  }

  /** The row is within its bounds and was not written in the future. */
  ghost predicate Sane(b: Bucket, now: real, p: Policy) {
    b.Row? ==> 0.0 <= b.tokens <= p.burst as real && b.updated <= now
  }

  /** Between two moments the level gains at most the rate times the time between. */
  lemma LevelGrowth(b: Bucket, s: real, t: real, p: Policy)
    requires Valid(p) && s <= t && Sane(b, s, p)
    ensures Level(b, s, p) <= Level(b, t, p) <= Level(b, s, p) + Gain(t - s, p)
    ensures 0.0 <= Level(b, s, p) <= p.burst as real
  {
    hide Gain;
    GainGrows(0.0, t - s, p);
    if b.Row? {
      GainAdds(s - b.updated, t - s, p);
      assert s - b.updated + (t - s) == t - b.updated;
      GainGrows(0.0, s - b.updated, p);
    }
  }

  lemma TryKeepsSane(b: Bucket, from: real, a: Attempt, p: Policy)
    requires Valid(p) && Sane(b, from, p) && from <= a.tested <= a.taken <= a.stamped
    ensures Sane(Try(b, a, p), a.stamped, p)
  {
    hide Gain, Level;
    LevelGrowth(b, a.tested, a.taken, p);
    LevelGrowth(b, a.taken, a.taken, p);
  }

  /** The level of a row just written. */
  lemma LevelAtStamp(tokens: real, at: real, p: Policy)
    requires tokens <= p.burst as real
    ensures Level(Row(tokens, at), at, p) == tokens
  {
    GainAdds(0.0, 0.0, p);
  }

  /** An admission costs a whole token: the level just after it, and one more, is within what the
      refill since `from` explains. */
  lemma TryCosts(b: Bucket, from: real, a: Attempt, p: Policy)
    requires Valid(p) && Sane(b, from, p) && from <= a.tested <= a.taken <= a.stamped
    ensures Level(Try(b, a, p), a.stamped, p) + (if Admits(b, a, p) then 1.0 else 0.0)
         <= Level(b, from, p) + Gain(a.stamped - from, p)
  {
    hide Gain, Level;
    LevelGrowth(b, from, a.taken, p);
    LevelGrowth(b, from, a.stamped, p);
    LevelGrowth(b, a.taken, a.taken, p);
    GainGrows(a.taken - from, a.stamped - from, p);
    GainGrows(0.0, a.stamped - from, p);
    AbsentIsFull(from, p);
    if Admits(b, a, p) {
      var after := Try(b, a, p);
      LevelAtStamp(after.tokens, a.stamped, p);
    }
  }

  lemma AbsentIsFull(at: real, p: Policy)
    ensures Level(Absent, at, p) == p.burst as real
  {
  }

  lemma {:induction false} AdmissionsCost(b: Bucket, from: real, attempts: seq<Attempt>, p: Policy)
    requires Valid(p) && Sane(b, from, p) && Ordered(from, attempts)
    ensures from <= Last(from, attempts)
    ensures Admitted(b, attempts, p) as real <= Level(b, from, p) + Gain(Last(from, attempts) - from, p)
    decreases |attempts|
  {
    hide Gain, Level, Try;
    LevelGrowth(b, from, from, p);
    GainGrows(0.0, 0.0, p);
    if attempts != [] {
      var a := attempts[0];
      TryKeepsSane(b, from, a, p);
      TryCosts(b, from, a, p);
      AdmissionsCost(Try(b, a, p), a.stamped, attempts[1..], p);
      GainAdds(Last(a.stamped, attempts[1..]) - a.stamped, a.stamped - from, p);
      assert Last(a.stamped, attempts[1..]) - a.stamped + (a.stamped - from) == Last(from, attempts) - from;
    }
  }

  /** In any window of a history at most burst + rate x length attempts are admitted: `before` is
      everything that happened earlier, `window` what happens within `length` seconds of `from`. */
  lemma WindowBound(start: real, before: seq<Attempt>, from: real, window: seq<Attempt>, length: real, p: Policy)
    requires Valid(p) && Ordered(start, before) && Last(start, before) <= from
    requires Ordered(from, window) && Last(from, window) <= from + length
    ensures Admitted(After(Absent, before, p), window, p) as real <= p.burst as real + length * (p.perMinute as real / 60.0)
  {
    assert Gain(length, p) == length * (p.perMinute as real / 60.0);
    hide Gain, Level;
    HistoryIsSane(Absent, start, before, p);
    var b := After(Absent, before, p);
    AdmissionsCost(b, from, window, p);
    LevelGrowth(b, from, from, p);
    GainGrows(Last(from, window) - from, length, p);
  }

  lemma {:induction false} HistoryIsSane(b: Bucket, from: real, attempts: seq<Attempt>, p: Policy)
    requires Valid(p) && Sane(b, from, p) && Ordered(from, attempts)
    ensures Sane(After(b, attempts, p), Last(from, attempts), p)
    decreases |attempts|
  {
    if attempts != [] {
      TryKeepsSane(b, from, attempts[0], p);
      HistoryIsSane(Try(b, attempts[0], p), attempts[0].stamped, attempts[1..], p);
    }
  }

  // ---------------------------------------------------------------- what is there is given

  /** A token that is there is given, and the others stay. */
  lemma TokenIsGiven(b: Bucket, from: real, a: Attempt, n: real, p: Policy)
    requires Valid(p) && Sane(b, from, p) && from <= a.tested <= a.taken <= a.stamped
    requires Level(b, from, p) >= n >= 1.0
    ensures Admits(b, a, p) && Level(Try(b, a, p), a.stamped, p) >= n - 1.0
  {
    hide Gain, Level;
    LevelGrowth(b, from, a.tested, p);
    LevelGrowth(b, from, a.taken, p);
    LevelGrowth(b, a.taken, a.taken, p);
    AbsentIsFull(from, p);
    AbsentIsFull(a.taken, p);
    LevelAtStamp(Try(b, a, p).tokens, a.stamped, p);
  }

  /** As many attempts as there are tokens are all admitted, however close together. */
  lemma {:induction false} TokensAreGiven(b: Bucket, from: real, attempts: seq<Attempt>, p: Policy)
    requires Valid(p) && Sane(b, from, p) && Ordered(from, attempts) && Level(b, from, p) >= |attempts| as real
    ensures Admitted(b, attempts, p) == |attempts|
    decreases |attempts|
  {
    hide Gain, Level, Admits, Try;
    if attempts != [] {
      var a := attempts[0];
      TokenIsGiven(b, from, a, |attempts| as real, p);
      TryKeepsSane(b, from, a, p);
      TokensAreGiven(Try(b, a, p), a.stamped, attempts[1..], p);
    }
  }

  /** A bucket nobody has used admits a whole burst at once. */
  lemma BurstIsAdmitted(start: real, attempts: seq<Attempt>, p: Policy)
    requires Valid(p) && Ordered(start, attempts) && |attempts| <= p.burst
    ensures Admitted(Absent, attempts, p) == |attempts|
  {
    AbsentIsFull(start, p);
    TokensAreGiven(Absent, start, attempts, p);
  }

  /** After any history, an idle time in which the rate gives n tokens lets the next n attempts in, up to a
      burst. */
  lemma IdleTimeRefills(start: real, before: seq<Attempt>, idle: real, attempts: seq<Attempt>, p: Policy)
    requires Valid(p) && Ordered(start, before) && idle >= 0.0 && Ordered(Last(start, before) + idle, attempts)
    requires |attempts| <= p.burst && |attempts| as real <= idle * (p.perMinute as real / 60.0)
    ensures Admitted(After(Absent, before, p), attempts, p) == |attempts|
  {
    var b, last := After(Absent, before, p), Last(start, before);
    assert |attempts| as real <= Gain(idle, p);
    hide Gain;
    HistoryIsSane(Absent, start, before, p);
    if b.Row? {
      GainGrows(idle, last + idle - b.updated, p);
      GainGrows(0.0, last + idle - b.updated, p);
    }
    TokensAreGiven(b, last + idle, attempts, p);
  }

  // ---------------------------------------------------------------- lazy and eager refilling

  /** A bucket that is refilled by refused attempts too, up to the moment they are tested. */
  function TryEager(b: Bucket, a: Attempt, p: Policy): Bucket {
    if Admits(b, a, p) then Try(b, a, p) else Row(Level(b, a.tested, p), a.tested)
  }

  ghost predicate SameFrom(lazy: Bucket, eager: Bucket, now: real, p: Policy) {
    && (lazy.Absent? <==> eager.Absent?)
    && forall t :: t >= now ==> Level(lazy, t, p) == Level(eager, t, p)
  }

  lemma RefillTwice(b: Bucket, s: real, t: real, p: Policy)
    requires Valid(p) && b.Row? && Sane(b, s, p) && s <= t
    ensures Level(Row(Level(b, s, p), s), t, p) == Level(b, t, p)
  {
    hide Gain;
    GainAdds(s - b.updated, t - s, p);
    assert s - b.updated + (t - s) == t - b.updated;
    GainGrows(0.0, s - b.updated, p);
    GainGrows(0.0, t - s, p);
  }

  lemma EagerStep(lazy: Bucket, eager: Bucket, now: real, a: Attempt, p: Policy)
    requires Valid(p) && Sane(lazy, now, p) && Sane(eager, now, p) && SameFrom(lazy, eager, now, p)
    requires now <= a.tested <= a.taken <= a.stamped
    ensures Admits(lazy, a, p) == Admits(eager, a, p)
    ensures SameFrom(Try(lazy, a, p), TryEager(eager, a, p), a.stamped, p)
    ensures Sane(TryEager(eager, a, p), a.stamped, p)
  {
    hide Level;
    assert Level(lazy, a.tested, p) == Level(eager, a.tested, p) && Level(lazy, a.taken, p) == Level(eager, a.taken, p);
    LevelGrowth(eager, a.tested, a.taken, p);
    TryKeepsSane(eager, now, a, p);
    if !Admits(lazy, a, p) {
      forall u | u >= a.stamped
        ensures Level(lazy, u, p) == Level(TryEager(eager, a, p), u, p)
      {
        RefillTwice(eager, a.tested, u, p);
        assert Level(lazy, u, p) == Level(eager, u, p);
      }
    }
  }

  function AdmittedEager(b: Bucket, attempts: seq<Attempt>, p: Policy): seq<bool>
    decreases |attempts|
  {
    if attempts == [] then []
    else [Admits(b, attempts[0], p)] + AdmittedEager(TryEager(b, attempts[0], p), attempts[1..], p)
  }

  function AdmittedLazy(b: Bucket, attempts: seq<Attempt>, p: Policy): seq<bool>
    decreases |attempts|
  {
    if attempts == [] then []
    else [Admits(b, attempts[0], p)] + AdmittedLazy(Try(b, attempts[0], p), attempts[1..], p)
  }

  lemma {:induction false} LazyIsEager(lazy: Bucket, eager: Bucket, now: real, attempts: seq<Attempt>, p: Policy)
    requires Valid(p) && Sane(lazy, now, p) && Sane(eager, now, p) && SameFrom(lazy, eager, now, p) && Ordered(now, attempts)
    ensures AdmittedLazy(lazy, attempts, p) == AdmittedEager(eager, attempts, p)
    decreases |attempts|
  {
    hide Level, Admits, Try, TryEager;
    if attempts != [] {
      var a := attempts[0];
      EagerStep(lazy, eager, now, a, p);
      TryKeepsSane(lazy, now, a, p);
      LazyIsEager(Try(lazy, a, p), TryEager(eager, a, p), a.stamped, attempts[1..], p);
    }
  }

  /** Refilling only when a token is taken decides every attempt as refilling at every attempt. */
  lemma LazyBucketAgrees(start: real, attempts: seq<Attempt>, p: Policy)
    requires Valid(p) && Ordered(start, attempts)
    ensures AdmittedLazy(Absent, attempts, p) == AdmittedEager(Absent, attempts, p)
  {
    LazyIsEager(Absent, Absent, start, attempts, p);
  }

  // ---------------------------------------------------------------- Retry-After

  /** max(1, ceil(60 / requests per minute)) seconds. */
  function RetryAfter(p: Policy): int
    requires p.perMinute >= 1
  {
    var c := (60 + p.perMinute - 1) / p.perMinute;
    if c > 1 then c else 1
  }

  /** The returned time is the least whole number of seconds, from 1 on, in which the rate gives a token. */
  lemma RetryIsLeast(p: Policy, seconds: int)
    requires Valid(p) && seconds >= 1
    ensures seconds >= RetryAfter(p) <==> seconds * p.perMinute >= 60
    ensures RetryAfter(p) >= 1
  {
    var n := p.perMinute;
    var c := (60 + n - 1) / n;
    assert c * n >= 60 && (c - 1) * n < 60 by {
      var r := (60 + n - 1) % n;
      assert c * n + r == 60 + n - 1;
      assert (c - 1) * n == c * n - n;
    }
    Multiples(seconds, c, n);
  }

  lemma Multiples(a: int, c: int, n: int)
    requires n >= 1 && c * n >= 60 && (c - 1) * n < 60
    ensures a >= c <==> a * n >= 60
  {
    if a >= c {
      assert (a - c) * n >= 0;
      assert a * n == c * n + (a - c) * n;
    } else {
      assert (c - 1 - a) * n >= 0;
      assert a * n == (c - 1) * n - (c - 1 - a) * n;
    }
  }

  /** Waiting the returned time after a rejection, with no other admission, guarantees admission. */
  lemma RetrySucceeds(start: real, before: seq<Attempt>, a: Attempt, again: Attempt, p: Policy)
    requires Valid(p) && Ordered(start, before + [a])
    requires !Admits(After(Absent, before, p), a, p)
    requires again.tested >= a.tested + RetryAfter(p) as real
    ensures Admits(Try(After(Absent, before, p), a, p), again, p)
  {
    hide Gain, RetryAfter;
    SplitOrder(start, before, a);
    HistoryIsSane(Absent, start, before, p);
    var b := After(Absent, before, p);
    RetryRefills(p);
    GainGrows(RetryAfter(p) as real, again.tested - b.updated, p);
  }

  /** The returned wait refills at least one token. */
  lemma RetryRefills(p: Policy)
    requires Valid(p)
    ensures RetryAfter(p) >= 1 && Gain(RetryAfter(p) as real, p) >= 1.0
  {
    var w, n := RetryAfter(p), p.perMinute;
    var c := (60 + n - 1) / n;
    assert c * n >= 60;
    assert w * n >= c * n;
    assert (w * n) as real == w as real * n as real;
    assert w as real * (n as real / 60.0) == (w as real * n as real) / 60.0;
  }

  lemma {:induction false} SplitOrder(start: real, before: seq<Attempt>, a: Attempt)
    requires Ordered(start, before + [a])
    ensures Ordered(start, before) && Last(start, before) <= a.tested
    decreases |before|
  {
    if before != [] {
      assert (before + [a])[1..] == before[1..] + [a];
      SplitOrder(before[0].stamped, before[1..], a);
    }
  }

  // ---------------------------------------------------------------- the limiter

  /** The shared row. */
  class AuthLimiter {
    const policy: Policy
    var row: Bucket

    constructor (policy: Policy)
      ensures this.policy == policy && row == Absent
    {
      this.policy, row := policy, Absent;
    }

    /** The insert-or-update of one attempt; None stands for the 429 answer with its Retry-After. */
    method Limit(a: Attempt) returns (allowed: bool, retryAfter: int)
      requires Valid(policy)
      modifies this`row
      ensures allowed <==> Admits(old(row), a, policy)
      ensures row == Try(old(row), a, policy) && (!allowed ==> row == old(row))
      ensures retryAfter == if allowed then 0 else RetryAfter(policy)
    {
      retryAfter := 0;
      if row.Absent? {
        row, allowed := Row(policy.burst as real - 1.0, a.stamped), true;
      } else if Level(row, a.tested, policy) >= 1.0 {
        row, allowed := Row(Level(row, a.taken, policy) - 1.0, a.stamped), true;
      } else {
        allowed, retryAfter := false, RetryAfter(policy);
      }
    }
  }
}
