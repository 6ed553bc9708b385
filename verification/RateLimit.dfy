/** The token-bucket limiter: its in-place form, and what its callers can observe. Tokens and seconds are
    reals. */
module RateLimit {
  type Key = string
  datatype Bucket = Bucket(tokens: real, last: real)

  /** rate is tokens a second, burst the ceiling. */
  datatype Config = Config(rate: real, burst: int) {
    ghost predicate Valid() { rate > 0.0 && burst >= 1 }
  }

  /** New: defaults for non-positive arguments. */
  function NewConfig(ratePerMinute: real, burst: int): (c: Config)
    ensures c.Valid()
  {
    Config(if ratePerMinute <= 0.0 then 1.0 else ratePerMinute / 60.0, if burst <= 0 then 1 else burst)
  }

  datatype State = State(buckets: map<Key, Bucket>, sweepAt: real)

  /** The sweep's idle threshold: whole seconds of a full refill, a minute at least. */
  function Idle(c: Config): real
    requires c.Valid()
  {
    var seconds := (c.burst as real / c.rate).Floor as real;
    if seconds < 60.0 then 60.0 else seconds
  }

  function Swept(c: Config, s: State, now: real): State
    requires c.Valid()
  {
    if now < s.sweepAt then s
    else State(map k | k in s.buckets && now - s.buckets[k].last <= Idle(c) :: s.buckets[k], now + 60.0)
  }

  function Refilled(c: Config, b: Bucket, now: real): Bucket {
    var elapsed := now - b.last;
    if elapsed <= 0.0 then b
    else
      var tokens := b.tokens + elapsed * c.rate;
      Bucket(if tokens > c.burst as real then c.burst as real else tokens, now)
  }

  function BucketAt(c: Config, s: State, key: Key, now: real): Bucket {
    if key in s.buckets then s.buckets[key] else Bucket(c.burst as real, now)
  }

  /** One call without its sweep: the new state and the answer. */
  function Take(c: Config, s: State, key: Key, now: real): (State, bool) {
    var b := Refilled(c, BucketAt(c, s, key, now), now);
    if b.tokens < 1.0 then (s.(buckets := s.buckets[key := b]), false)
    else (s.(buckets := s.buckets[key := b.(tokens := b.tokens - 1.0)]), true)
  }

  function Admit(c: Config, s: State, key: Key, now: real): (State, bool)
    requires c.Valid()
  {
    Take(c, Swept(c, s, now), key, now)
  }

  // ---------------------------------------------------------------- the in-place limiter

  class Limiter {
    const config: Config
    var buckets: map<Key, Bucket>
    var sweepAt: real

    function Contents(): State
      reads this
    {
      State(buckets, sweepAt)
    }

    constructor (ratePerMinute: real, burst: int)
      ensures config == NewConfig(ratePerMinute, burst) && config.Valid()
      ensures 60.0 * config.rate == if ratePerMinute > 0.0 then ratePerMinute else 60.0
      ensures config.burst == if burst > 0 then burst else 1
      ensures Contents() == State(map[], 0.0)
    {
      config := NewConfig(ratePerMinute, burst);
      buckets := map[];
      sweepAt := 0.0;
    }

    /** sweep: drops every bucket idle for longer than the threshold, at most once a minute. */
    method Sweep(now: real)
      requires config.Valid()
      modifies this
      ensures Contents() == Swept(config, old(Contents()), now)
    {
      if now < sweepAt {
        return;
      }
      sweepAt := now + 60.0;
      var idle := (config.burst as real / config.rate).Floor as real;
      if idle < 60.0 {
        idle := 60.0;
      }
      var rest := buckets.Keys;
      while rest != {}
        invariant rest <= buckets.Keys <= old(buckets).Keys
        invariant forall k :: k in buckets ==> buckets[k] == old(buckets)[k]
        invariant forall k :: k in old(buckets) && k !in rest ==>
                    (k in buckets <==> now - old(buckets)[k].last <= idle)
        invariant sweepAt == now + 60.0
        decreases rest
      {
        var k :| k in rest;
        rest := rest - {k};
        if now - buckets[k].last > idle {
          buckets := buckets - {k};
        }
      }
      assert buckets == Swept(config, old(Contents()), now).buckets;
    }

    /** Allow: the answer and the whole new state are those of the specification. */
    method Allow(key: Key, now: real) returns (admitted: bool)
      requires config.Valid()
      modifies this
      ensures (Contents(), admitted) == Admit(config, old(Contents()), key, now)
    {
      Sweep(now);
      ghost var swept := Contents();
      if key !in buckets {
        buckets := buckets[key := Bucket(config.burst as real, now)];
      }
      var b := buckets[key];
      var elapsed := now - b.last;
      if elapsed > 0.0 {
        var tokens := b.tokens + elapsed * config.rate;
        if tokens > config.burst as real {
          tokens := config.burst as real;
        }
        b := Bucket(tokens, now);
      }
      assert b == Refilled(config, BucketAt(config, swept, key, now), now);
      if b.tokens < 1.0 {
        buckets := buckets[key := b];
        assert buckets == swept.buckets[key := b];
        return false;
      }
      buckets := buckets[key := b.(tokens := b.tokens - 1.0)];
      assert buckets == swept.buckets[key := b.(tokens := b.tokens - 1.0)];
      return true;
    }
  }

  // ---------------------------------------------------------------- runs of calls

  datatype Call = Call(key: Key, now: real)

  const NEW := State(map[], 0.0)

  function Serve(c: Config, s: State, call: Call, evict: bool): (State, bool)
    requires c.Valid()
  {
    if evict then Admit(c, s, call.key, call.now) else Take(c, s, call.key, call.now)
  }

  /** The answers to a sequence of calls, by the limiter that evicts or by one that never does. */
  function Answers(c: Config, s: State, calls: seq<Call>, evict: bool): (answers: seq<bool>)
    requires c.Valid()
    ensures |answers| == |calls|
    decreases calls
  {
    if calls == [] then []
    else
      var (next, admitted) := Serve(c, s, calls[0], evict);
      [admitted] + Answers(c, next, calls[1..], evict)
  }

  predicate Forward(from: real, calls: seq<Call>) {
    && (calls != [] ==> from <= calls[0].now)
    && (forall i :: 0 < i < |calls| ==> calls[i - 1].now <= calls[i].now)
  }

  // ---------------------------------------------------------------- levels

  ghost predicate Sane(c: Config, s: State, now: real) {
    forall k :: k in s.buckets ==> 0.0 <= s.buckets[k].tokens <= c.burst as real && s.buckets[k].last <= now
  }

  /** The tokens a key would find at an instant. */
  function Level(c: Config, s: State, key: Key, now: real): real {
    Refilled(c, BucketAt(c, s, key, now), now).tokens
  }

  function Capped(c: Config, tokens: real): real {
    if tokens > c.burst as real then c.burst as real else tokens
  }

  ghost predicate SameLevels(c: Config, s: State, t: State, now: real) {
    forall key :: Level(c, s, key, now) == Level(c, t, key, now)
  }

  /** Tokens gained over a span. */
  function Gain(c: Config, seconds: real): real { seconds * c.rate }

  lemma GainIsLinear(c: Config, x: real, y: real)
    ensures Gain(c, x + y) == Gain(c, x) + Gain(c, y)
    ensures Gain(c, 0.0) == 0.0
    ensures c.Valid() && x >= 0.0 ==> Gain(c, x) >= 0.0
  {
  }

  lemma LevelLater(c: Config, s: State, key: Key, now: real, later: real)
    requires c.Valid() && Sane(c, s, now) && now <= later
    ensures Level(c, s, key, later) == Capped(c, Level(c, s, key, now) + Gain(c, later - now))
    ensures 0.0 <= Level(c, s, key, now) <= c.burst as real
  {
    GainIsLinear(c, later - now, 0.0);
    if key in s.buckets {
      var last := s.buckets[key].last;
      GainIsLinear(c, later - now, now - last);
      GainIsLinear(c, now - last, 0.0);
      assert (later - now) + (now - last) == later - last;
      assert Gain(c, now - last) == (now - last) * c.rate && Gain(c, later - last) == (later - last) * c.rate;
      hide Gain;
    }
  }

  lemma TakeActsOnLevels(c: Config, s: State, call: Call)
    requires c.Valid() && Sane(c, s, call.now)
    ensures var (t, admitted) := Take(c, s, call.key, call.now);
            && Sane(c, t, call.now)
            && (admitted <==> Level(c, s, call.key, call.now) >= 1.0)
            && (forall key :: Level(c, t, key, call.now)
                  == Level(c, s, key, call.now) - if key == call.key && admitted then 1.0 else 0.0)
  {
    LevelLater(c, s, call.key, call.now, call.now);
  }

  /** The threshold covers a full refill. */
  predicate Covers(c: Config)
    requires c.Valid()
  {
    c.burst as real / c.rate <= Idle(c)
  }

  /** ... exactly when a full refill takes at most a minute or a whole number of seconds. */
  lemma CoversIff(c: Config)
    requires c.Valid()
    ensures Covers(c) <==> (|| c.burst as real / c.rate <= 60.0
                            || (c.burst as real / c.rate).Floor as real == c.burst as real / c.rate)
  {
  }

  lemma LongIdleIsFull(c: Config, b: Bucket, now: real)
    requires c.Valid() && Covers(c) && 0.0 <= b.tokens
    requires now - b.last > Idle(c)
    ensures Refilled(c, b, now).tokens == c.burst as real
  {
    var x, full := now - b.last, c.burst as real / c.rate;
    assert full * c.rate == c.burst as real;
    assert x >= full;
    assert (x - full) * c.rate >= 0.0;
    assert x * c.rate == full * c.rate + (x - full) * c.rate;
    assert x > 0.0 && b.tokens + x * c.rate >= c.burst as real;
  }

  lemma SweepKeepsLevels(c: Config, s: State, now: real)
    requires c.Valid() && Covers(c) && Sane(c, s, now)
    ensures Sane(c, Swept(c, s, now), now) && SameLevels(c, s, Swept(c, s, now), now)
  {
    var t := Swept(c, s, now);
    forall key ensures Level(c, s, key, now) == Level(c, t, key, now) {
      if key in s.buckets && key !in t.buckets { LongIdleIsFull(c, s.buckets[key], now); }
    }
  }

  lemma LevelsStaySame(c: Config, s: State, t: State, now: real, later: real)
    requires c.Valid() && Sane(c, s, now) && Sane(c, t, now) && SameLevels(c, s, t, now) && now <= later
    ensures SameLevels(c, s, t, later)
  {
    forall key ensures Level(c, s, key, later) == Level(c, t, key, later) {
      LevelLater(c, s, key, now, later);
      LevelLater(c, t, key, now, later);
    }
  }

  /** From states with the same levels, the evicting limiter answers as the one that never evicts. */
  lemma {:induction false} EvictingAnswersAlike(c: Config, s: State, t: State, now: real, calls: seq<Call>)
    requires c.Valid() && Covers(c)
    requires Sane(c, s, now) && Sane(c, t, now) && SameLevels(c, s, t, now)
    requires Forward(now, calls)
    ensures Answers(c, s, calls, true) == Answers(c, t, calls, false)
    decreases calls
  {
    if calls != [] {
      var call := calls[0];
      LevelsStaySame(c, s, t, now, call.now);
      hide Level, Refilled, Idle, Covers;
      SweepKeepsLevels(c, s, call.now);
      TakeActsOnLevels(c, Swept(c, s, call.now), call);
      TakeActsOnLevels(c, t, call);
      EvictingAnswersAlike(c, Serve(c, s, call, true).0, Serve(c, t, call, false).0, call.now, calls[1..]);
    }
  }

  // ---------------------------------------------------------------- the window bound

  /** How many of a key's calls inside [lo, hi] were admitted. */
  function Admitted(calls: seq<Call>, answers: seq<bool>, key: Key, lo: real, hi: real): nat
    requires |calls| == |answers|
    decreases calls
  {
    if calls == [] then 0
    else
      (if answers[0] && calls[0].key == key && lo <= calls[0].now <= hi then 1 else 0)
      + Admitted(calls[1..], answers[1..], key, lo, hi)
  }

  /** What a key can still be granted inside the window, seen from an instant. */
  ghost function Allowance(c: Config, s: State, key: Key, lo: real, hi: real, now: real): real {
    if now > hi then 0.0
    else if now < lo then c.burst as real + Gain(c, hi - lo)
    else Level(c, s, key, now) + Gain(c, hi - now)
  }

  lemma AllowanceShrinks(c: Config, s: State, key: Key, lo: real, hi: real, now: real, later: real)
    requires c.Valid() && Sane(c, s, now) && now <= later && lo <= hi
    ensures Allowance(c, s, key, lo, hi, later) <= Allowance(c, s, key, lo, hi, now)
    ensures later > hi ==> Allowance(c, s, key, lo, hi, now) >= 0.0
  {
    LevelLater(c, s, key, now, later);
    LevelLater(c, s, key, later, later);
    hide Level, Gain;
    GainIsLinear(c, hi - lo, 0.0);
    GainIsLinear(c, hi - now, 0.0);
    GainIsLinear(c, later - now, hi - later);
    GainIsLinear(c, later - lo, hi - later);
    assert (later - now) + (hi - later) == hi - now && (later - lo) + (hi - later) == hi - lo;
  }

  /** Each grant spends one token of the key's allowance. */
  lemma {:induction false} GrantsWithinAllowance(
    c: Config, s: State, now: real, calls: seq<Call>, key: Key, lo: real, hi: real)
    requires c.Valid() && Sane(c, s, now) && Forward(now, calls) && lo <= hi
    ensures Admitted(calls, Answers(c, s, calls, false), key, lo, hi) as real <= Allowance(c, s, key, lo, hi, now)
    decreases calls
  {
    AllowanceShrinks(c, s, key, lo, hi, now, now);
    if calls == [] {
      AllowanceShrinks(c, s, key, lo, hi, now, if hi >= now then hi + 1.0 else now);
    } else {
      var call := calls[0];
      var (t, admitted) := Serve(c, s, call, false);
      AllowanceShrinks(c, s, key, lo, hi, now, call.now);
      TakeActsOnLevels(c, s, call);
      hide Take, Level;
      assert Answers(c, s, calls, false)[1..] == Answers(c, t, calls[1..], false);
      GrantsWithinAllowance(c, t, call.now, calls[1..], key, lo, hi);
    }
  }

  /** The limiter's promise about every key and every window of a run. */
  ghost predicate WindowBound(c: Config, calls: seq<Call>, answers: seq<bool>)
    requires |calls| == |answers|
  {
    forall key: Key, lo: real, hi: real :: lo <= hi ==>
      Admitted(calls, answers, key, lo, hi) as real <= c.burst as real + Gain(c, hi - lo)
  }

  lemma NeverEvictingKeepsBound(c: Config, calls: seq<Call>)
    requires c.Valid() && Forward(0.0, calls)
    ensures WindowBound(c, calls, Answers(c, NEW, calls, false))
  {
    forall key: Key, lo: real, hi: real | lo <= hi
      ensures Admitted(calls, Answers(c, NEW, calls, false), key, lo, hi) as real <= c.burst as real + Gain(c, hi - lo)
    {
      GrantsWithinAllowance(c, NEW, 0.0, calls, key, lo, hi);
      hide Answers, Admitted, Forward, Gain;
      GainIsLinear(c, hi - lo, 0.0);
      GainIsLinear(c, 0.0 - lo, hi - 0.0);
      assert (0.0 - lo) + (hi - 0.0) == hi - lo;
    }
  }

  // ---------------------------------------------------------------- when eviction shows

  function Final(c: Config, s: State, calls: seq<Call>, evict: bool): State
    requires c.Valid()
    decreases calls
  {
    if calls == [] then s else Final(c, Serve(c, s, calls[0], evict).0, calls[1..], evict)
  }

  lemma {:induction false} AnswersConcat(c: Config, s: State, a: seq<Call>, b: seq<Call>, evict: bool)
    requires c.Valid()
    ensures Answers(c, s, a + b, evict) == Answers(c, s, a, evict) + Answers(c, Final(c, s, a, evict), b, evict)
    decreases a
  {
    if a == [] {
      assert a + b == b;
    } else {
      assert (a + b)[0] == a[0] && (a + b)[1..] == a[1..] + b;
      AnswersConcat(c, Serve(c, s, a[0], evict).0, a[1..], b, evict);
    }
  }

  function Repeat(call: Call, n: nat): (calls: seq<Call>)
    ensures |calls| == n && forall i :: 0 <= i < n ==> calls[i] == call
  {
    if n == 0 then [] else [call] + Repeat(call, n - 1)
  }

  predicate AllTrue(answers: seq<bool>) { forall i :: 0 <= i < |answers| ==> answers[i] }

  /** n calls at one instant, between sweeps, are all admitted exactly when n tokens are there. */
  lemma {:induction false} BurstAtOnce(c: Config, s: State, call: Call, n: nat, evict: bool)
    requires c.Valid() && Sane(c, s, call.now)
    requires evict ==> call.now < s.sweepAt
    decreases n
    ensures AllTrue(Answers(c, s, Repeat(call, n), evict)) <==> n as real <= Level(c, s, call.key, call.now)
    ensures n as real <= Level(c, s, call.key, call.now) ==>
              var t := Final(c, s, Repeat(call, n), evict);
              && Sane(c, t, call.now) && t.sweepAt == s.sweepAt
              && Level(c, t, call.key, call.now) == Level(c, s, call.key, call.now) - n as real
              && (n > 0 ==> call.key in t.buckets && t.buckets[call.key].last == call.now)
  {
    LevelLater(c, s, call.key, call.now, call.now);
    if n > 0 {
      var t := Serve(c, s, call, evict).0;
      TakeActsOnLevels(c, s, call);
      assert t.sweepAt == s.sweepAt && call.key in t.buckets && t.buckets[call.key].last == call.now;
      hide Take, Level;
      BurstAtOnce(c, t, call, n - 1, evict);
      var answers := Answers(c, s, Repeat(call, n), evict);
      assert answers == [Serve(c, s, call, evict).1] + Answers(c, t, Repeat(call, n - 1), evict);
      assert AllTrue(answers) <==> answers[0] && AllTrue(answers[1..]);
    }
  }

  /** A sweep that the first call would do may as well have been done before. */
  lemma SweptFirst(c: Config, s: State, calls: seq<Call>)
    requires c.Valid() && calls != []
    ensures var swept := Swept(c, s, calls[0].now);
            && Answers(c, s, calls, true) == Answers(c, swept, calls, true)
            && Final(c, s, calls, true) == Final(c, swept, calls, true)
  {
    assert Swept(c, Swept(c, s, calls[0].now), calls[0].now) == Swept(c, s, calls[0].now);
    hide Swept, Take;
  }

  /** A burst, and another just after the threshold but before a full refill. */
  function TwoBursts(c: Config, again: real): seq<Call>
    requires c.Valid()
  {
    Repeat(Call("", 0.0), c.burst) + Repeat(Call("", again), c.burst)
  }

  /** Between the threshold and a full refill. */
  function TooEarly(c: Config): real
    requires c.Valid()
  {
    (Idle(c) + c.burst as real / c.rate) / 2.0
  }

  lemma TooEarlyFacts(c: Config)
    requires c.Valid() && !Covers(c)
    ensures TooEarly(c) > Idle(c) >= 60.0
    ensures 0.0 < Gain(c, TooEarly(c)) < c.burst as real
  {
    var full, t := c.burst as real / c.rate, TooEarly(c);
    assert Gain(c, full) == c.burst as real;
    assert t + (full - t) == full && 0.0 < t && 0.0 < full - t;
    GainIsLinear(c, t, full - t);
    GainIsPositive(c, t);
    GainIsPositive(c, full - t);
  }

  lemma GainIsPositive(c: Config, x: real)
    requires c.Valid() && x > 0.0
    ensures Gain(c, x) > 0.0
  {
  }

  lemma EvictingAdmitsBothBursts(c: Config)
    requires c.Valid() && !Covers(c)
    ensures AllTrue(Answers(c, NEW, TwoBursts(c, TooEarly(c)), true))
  {
    TooEarlyFacts(c);
    var t := TooEarly(c);
    var first, second := Repeat(Call("", 0.0), c.burst), Repeat(Call("", t), c.burst);
    SweptFirst(c, NEW, first);
    var swept := Swept(c, NEW, 0.0);
    assert swept.buckets == map[] && swept.sweepAt == 60.0;
    BurstAtOnce(c, swept, Call("", 0.0), c.burst, true);
    var spent := Final(c, NEW, first, true);
    SweptFirst(c, spent, second);
    var fresh' := Swept(c, spent, t);
    assert "" !in fresh'.buckets && fresh'.sweepAt == t + 60.0;
    BurstAtOnce(c, fresh', Call("", t), c.burst, true);
    AnswersConcat(c, NEW, first, second, true);
  }

  lemma SuffixTrue(a: seq<bool>, b: seq<bool>)
    ensures AllTrue(a + b) <==> AllTrue(a) && AllTrue(b)
  {
    if AllTrue(a + b) {
      assert forall i :: 0 <= i < |a| ==> (a + b)[i] == a[i];
      assert forall i :: 0 <= i < |b| ==> (a + b)[|a| + i] == b[i];
    }
  }

  lemma NeverEvictingRefusesTheSecond(c: Config)
    requires c.Valid() && !Covers(c)
    ensures !AllTrue(Answers(c, NEW, TwoBursts(c, TooEarly(c)), false))
  {
    TooEarlyFacts(c);
    var t := TooEarly(c);
    var first, second := Repeat(Call("", 0.0), c.burst), Repeat(Call("", t), c.burst);
    BurstAtOnce(c, NEW, Call("", 0.0), c.burst, false);
    var spent := Final(c, NEW, first, false);
    LevelLater(c, spent, "", 0.0, t);
    assert Level(c, spent, "", t) == t * c.rate;
    BurstAtOnce(c, spent, Call("", t), c.burst, false);
    AnswersConcat(c, NEW, first, second, false);
    var all := Answers(c, NEW, first + second, false);
    assert all == Answers(c, NEW, first, false) + Answers(c, spent, second, false);
    SuffixTrue(Answers(c, NEW, first, false), Answers(c, spent, second, false));
  }

  lemma {:induction false} AllAdmitted(calls: seq<Call>, answers: seq<bool>, key: Key, lo: real, hi: real)
    requires |calls| == |answers| && AllTrue(answers)
    requires forall i :: 0 <= i < |calls| ==> calls[i].key == key && lo <= calls[i].now <= hi
    ensures Admitted(calls, answers, key, lo, hi) == |calls|
    decreases calls
  {
    if calls != [] { AllAdmitted(calls[1..], answers[1..], key, lo, hi); }
  }

  ghost predicate EvictionUnobservable(c: Config)
    requires c.Valid()
  {
    forall calls: seq<Call> :: Forward(0.0, calls) ==> Answers(c, NEW, calls, true) == Answers(c, NEW, calls, false)
  }

  ghost predicate EvictingKeepsBound(c: Config)
    requires c.Valid()
  {
    forall calls: seq<Call> :: Forward(0.0, calls) ==> WindowBound(c, calls, Answers(c, NEW, calls, true))
  }

  /** Dropping idle buckets is unobservable, on every run whose clock does not run backwards, exactly when
      a full refill takes at most a minute or a whole number of seconds; and exactly then are a key's
      grants in every window within burst + rate * length. */
  lemma EvictionUnobservableIff(c: Config)
    requires c.Valid()
    ensures EvictionUnobservable(c) <==> (|| c.burst as real / c.rate <= 60.0
                                          || (c.burst as real / c.rate).Floor as real == c.burst as real / c.rate)
    ensures EvictingKeepsBound(c) <==> EvictionUnobservable(c)
  {
    CoversIff(c);
    if Covers(c) {
      hide Covers;
      forall calls: seq<Call> | Forward(0.0, calls)
        ensures Answers(c, NEW, calls, true) == Answers(c, NEW, calls, false)
        ensures WindowBound(c, calls, Answers(c, NEW, calls, true))
      {
        EvictingAnswersAlike(c, NEW, NEW, 0.0, calls);
        NeverEvictingKeepsBound(c, calls);
      }
    } else {
      UncoveredBreaksBoth(c);
    }
  }

  lemma UncoveredBreaksBoth(c: Config)
    requires c.Valid() && !Covers(c)
    ensures !EvictionUnobservable(c) && !EvictingKeepsBound(c)
  {
    hide Covers, Idle, TooEarly, Answers, Admitted, AllTrue, Gain, TwoBursts, Forward;
    TooEarlyFacts(c);
    EvictingAdmitsBothBursts(c);
    NeverEvictingRefusesTheSecond(c);
    var t := TooEarly(c);
    var calls := TwoBursts(c, t);
    var answers := Answers(c, NEW, calls, true);
    TwoBurstsShape(c, t);
    AllAdmitted(calls, answers, "", 0.0, t);
    assert t - 0.0 == t;
    assert Admitted(calls, answers, "", 0.0, t) as real > c.burst as real + Gain(c, t - 0.0);
    assert !WindowBound(c, calls, answers);
  }

  lemma TwoBurstsShape(c: Config, t: real)
    requires c.Valid() && t >= 0.0
    ensures Forward(0.0, TwoBursts(c, t)) && |TwoBursts(c, t)| == c.burst + c.burst
    ensures forall i :: 0 <= i < |TwoBursts(c, t)| ==>
              TwoBursts(c, t)[i].key == "" && 0.0 <= TwoBursts(c, t)[i].now <= t
  {
  }

  /** The three limiters the API builds, in calls a minute and burst. */
  lemma ApiLimitersAreCovered()
    ensures EvictionUnobservable(NewConfig(1200.0, 120)) && EvictingKeepsBound(NewConfig(1200.0, 120))
    ensures EvictionUnobservable(NewConfig(10.0, 10)) && EvictingKeepsBound(NewConfig(10.0, 10))
    ensures EvictionUnobservable(NewConfig(60.0, 30)) && EvictingKeepsBound(NewConfig(60.0, 30))
  {
    hide EvictionUnobservable, EvictingKeepsBound;
    EvictionUnobservableIff(NewConfig(1200.0, 120));
    EvictionUnobservableIff(NewConfig(10.0, 10));
    EvictionUnobservableIff(NewConfig(60.0, 30));
    assert 120.0 / (1200.0 / 60.0) == 6.0 && 10.0 / (10.0 / 60.0) == 60.0 && 30.0 / (60.0 / 60.0) == 30.0;
  }

  /** What a key can get from each of them in a minute, on any run and from any instant. */
  lemma ApiGrantsInAMinute(calls: seq<Call>, key: Key, from: real)
    requires Forward(0.0, calls)
    ensures var api, credentials, writes := NewConfig(1200.0, 120), NewConfig(10.0, 10), NewConfig(60.0, 30);
            && Admitted(calls, Answers(api, NEW, calls, true), key, from, from + 60.0) <= 1320
            && Admitted(calls, Answers(credentials, NEW, calls, true), key, from, from + 60.0) <= 20
            && Admitted(calls, Answers(writes, NEW, calls, true), key, from, from + 60.0) <= 90
  {
    hide Answers, Admitted, Forward, EvictionUnobservable, Gain;
    ApiLimitersAreCovered();
    GrantsInAMinute(1200.0, 120, calls, key, from);
    GrantsInAMinute(10.0, 10, calls, key, from);
    GrantsInAMinute(60.0, 30, calls, key, from);
  }

  /** Any covered limiter grants a key its burst and its calls a minute. */
  lemma GrantsInAMinute(ratePerMinute: real, burst: int, calls: seq<Call>, key: Key, from: real)
    requires ratePerMinute > 0.0 && burst > 0 && EvictingKeepsBound(NewConfig(ratePerMinute, burst))
    requires Forward(0.0, calls)
    ensures Admitted(calls, Answers(NewConfig(ratePerMinute, burst), NEW, calls, true), key, from, from + 60.0) as real
         <= burst as real + ratePerMinute
  {
    hide Answers, Admitted, Forward;
    var c := NewConfig(ratePerMinute, burst);
    assert WindowBound(c, calls, Answers(c, NEW, calls, true));
    assert Gain(c, (from + 60.0) - from) == ratePerMinute;
  }
}
