/** The per-IP token bucket of backend/main.go, with its idle-bucket sweep.

    Token counts and clock readings are reals (the source uses float64 seconds);
    every mutex-protected section is one step of the model. */
module RateLimiter {

  // A bucket idle for longer than this many seconds is forgotten by the sweep.
  const IDLE_SECONDS := 900.0

  datatype Limits = Limits(capacity: real, refill: real) {
    ghost predicate Valid() {
      0.0 <= capacity && 0.0 <= refill
    }

    // A bucket that has been idle for IDLE_SECONDS is full again, whatever it held.
    predicate SweepSafe() {
      capacity <= refill * IDLE_SECONDS
    }
  }

  datatype Bucket = Bucket(tokens: real, lastRefill: real)
  type Buckets = map<string, Bucket>

  datatype Event = Call(ip: string, at: real) | Sweep(at: real)
  datatype Outcome = Admitted | Denied | Swept

  function Min(a: real, b: real): real {
    if a < b then a else b
  }

  // What trickles into a bucket in `elapsed` seconds.
  function Trickle(p: Limits, elapsed: real): real {
    elapsed * p.refill
  }

  function Refilled(p: Limits, b: Bucket, t: real): real {
    Min(p.capacity, b.tokens + Trickle(p, t - b.lastRefill))
  }

  /** The tokens `ip` has at time `t`: what it held, lazily refilled up to the capacity.
      An address without a bucket has a full one. */
  function Level(p: Limits, bs: Buckets, ip: string, t: real): real {
    if ip in bs then Refilled(p, bs[ip], t) else p.capacity
  }

  function Decide(p: Limits, bs: Buckets, e: Event): Outcome {
    match e
    case Call(ip, at) => if Level(p, bs, ip, at) < 1.0 then Denied else Admitted
    case Sweep(_) => Swept
  }

  function After(p: Limits, bs: Buckets, e: Event): Buckets {
    match e
    case Call(ip, at) =>
      var level := Level(p, bs, ip, at);
      bs[ip := Bucket(if level < 1.0 then level else level - 1.0, at)]
    case Sweep(at) => map ip | ip in bs && !(at - bs[ip].lastRefill > IDLE_SECONDS) :: bs[ip]
  }

  // The outcome of every event of a trace, and the buckets it leaves.
  function Outcomes(p: Limits, bs: Buckets, es: seq<Event>): (os: seq<Outcome>)
    ensures |os| == |es|
    decreases |es|
  {
    if es == [] then [] else [Decide(p, bs, es[0])] + Outcomes(p, After(p, bs, es[0]), es[1..])
  }

  function Final(p: Limits, bs: Buckets, es: seq<Event>): Buckets
    decreases |es|
  {
    if es == [] then bs else Final(p, After(p, bs, es[0]), es[1..])
  }

  // The clock never runs backwards.
  predicate Ordered(clock: real, es: seq<Event>)
    decreases |es|
  {
    es == [] || (clock <= es[0].at && Ordered(es[0].at, es[1..]))
  }

  ghost predicate BucketsOk(p: Limits, bs: Buckets, clock: real) {
    forall ip | ip in bs :: 0.0 <= bs[ip].tokens <= p.capacity && bs[ip].lastRefill <= clock
  }

  /** The limiter itself: `allow` and one round of `gc`. */
  class Limiter {
    const limits: Limits
    var buckets: map<string, Bucket>

    constructor (capacity: real, refill: real)
      requires Limits(capacity, refill).Valid()
      ensures limits == Limits(capacity, refill) && buckets == map[]
    {
      limits := Limits(capacity, refill);
      buckets := map[];
    }

    method Allow(ip: string, now: real) returns (ok: bool)
      requires limits.Valid() && BucketsOk(limits, buckets, now)
      modifies this
      ensures buckets == After(limits, old(buckets), Call(ip, now))
      ensures ok <==> Decide(limits, old(buckets), Call(ip, now)) == Admitted
      ensures BucketsOk(limits, buckets, now)
    {
      StepKeepsBuckets(limits, buckets, now, Call(ip, now));
      ghost var level := Level(limits, buckets, ip, now);
      if ip !in buckets {
        buckets := buckets[ip := Bucket(limits.capacity, now)];
      }
      assert Refilled(limits, buckets[ip], now) == level;
      var elapsed := now - buckets[ip].lastRefill;
      var tokens := Min(limits.capacity, buckets[ip].tokens + elapsed * limits.refill);
      assert tokens == level;
      buckets := buckets[ip := Bucket(tokens, now)];
      if tokens < 1.0 {
        return false;
      }
      buckets := buckets[ip := Bucket(tokens - 1.0, now)];
      return true;
    }

    method Gc(now: real)
      requires BucketsOk(limits, buckets, now)
      modifies this
      ensures buckets == After(limits, old(buckets), Sweep(now))
      ensures BucketsOk(limits, buckets, now)
    {
      var todo := buckets.Keys;
      while todo != {}
        invariant todo <= buckets.Keys <= old(buckets).Keys
        invariant forall ip | ip in buckets :: buckets[ip] == old(buckets)[ip]
        invariant forall ip | ip in old(buckets) && ip !in todo ::
            ip in buckets <==> !(now - old(buckets)[ip].lastRefill > IDLE_SECONDS)
      {
        var ip :| ip in todo;
        if now - buckets[ip].lastRefill > IDLE_SECONDS {
          buckets := buckets - {ip};
        }
        todo := todo - {ip};
      }
    }
  }

  // ----- Levels -----

  lemma TrickleAdds(p: Limits, x: real, y: real)
    ensures Trickle(p, x) + Trickle(p, y) == Trickle(p, x + y)
    ensures Trickle(p, 0.0) == 0.0
  {
  }

  lemma TrickleNonNegative(p: Limits, x: real)
    requires 0.0 <= x && 0.0 <= p.refill
    ensures 0.0 <= Trickle(p, x)
  {
  }

  // The wait after which `amount` has trickled in.
  lemma WaitFor(p: Limits, amount: real) returns (wait: real)
    requires 0.0 < p.refill && 0.0 <= amount
    ensures 0.0 <= wait && Trickle(p, wait) == amount
  {
    wait := amount / p.refill;
  }

  /** Lazy refill composes: refilling at t1 and again at t2 is refilling once at t2. */
  lemma LevelLater(p: Limits, bs: Buckets, ip: string, t1: real, t2: real)
    requires p.Valid() && BucketsOk(p, bs, t1) && t1 <= t2
    ensures Level(p, bs, ip, t2) == Min(p.capacity, Level(p, bs, ip, t1) + Trickle(p, t2 - t1))
    ensures 0.0 <= Level(p, bs, ip, t1) <= p.capacity
  {
    hide Trickle;
    TrickleNonNegative(p, t2 - t1);
    if ip in bs {
      TrickleNonNegative(p, t1 - bs[ip].lastRefill);
      TrickleAdds(p, t1 - bs[ip].lastRefill, t2 - t1);
    }
  }

  /** Tokens stay within [0, capacity] across every step. */
  lemma StepKeepsBuckets(p: Limits, bs: Buckets, clock: real, e: Event)
    requires p.Valid() && BucketsOk(p, bs, clock) && clock <= e.at
    ensures BucketsOk(p, After(p, bs, e), e.at)
  {
    hide Trickle;
    if e.Call? {
      LevelLater(p, bs, e.ip, clock, e.at);
      LevelLater(p, bs, e.ip, e.at, e.at);
    }
  }

  lemma RefillNow(p: Limits, b: Bucket)
    requires b.tokens <= p.capacity
    ensures Refilled(p, b, b.lastRefill) == b.tokens
  {
    TrickleAdds(p, 0.0, 0.0);
  }

  lemma IdleBucketIsFull(p: Limits, b: Bucket, t: real)
    requires p.Valid() && p.SweepSafe() && 0.0 <= b.tokens && t - b.lastRefill > IDLE_SECONDS
    ensures Refilled(p, b, t) == p.capacity
  {
    assert p.capacity <= Trickle(p, IDLE_SECONDS);
    hide Trickle;
    TrickleNonNegative(p, t - b.lastRefill - IDLE_SECONDS);
    TrickleAdds(p, t - b.lastRefill - IDLE_SECONDS, IDLE_SECONDS);
  }

  /** What a step does to the level of any address: an admitted call takes one token from its
      own address, and nothing else moves. */
  lemma StepLevel(p: Limits, bs: Buckets, clock: real, e: Event, ip: string)
    requires p.Valid() && BucketsOk(p, bs, clock) && clock <= e.at
    requires e.Sweep? ==> p.SweepSafe()
    ensures Level(p, After(p, bs, e), ip, e.at)
         == Level(p, bs, ip, e.at) - (if e.Call? && e.ip == ip && Decide(p, bs, e) == Admitted then 1.0 else 0.0)
  {
    match e {
      case Call(caller, at) =>
        LevelLater(p, bs, caller, clock, at);
        hide Refilled;
        if caller == ip {
          RefillNow(p, After(p, bs, e)[ip]);
        } else {
          assert After(p, bs, e) == bs[caller := After(p, bs, e)[caller]];
        }
      case Sweep(at) =>
        hide Refilled;
        if ip in bs && at - bs[ip].lastRefill > IDLE_SECONDS {
          assert ip !in After(p, bs, e);
          IdleBucketIsFull(p, bs[ip], at);
        }
    }
  }

  // ----- Runs: tokens stay in range -----

  lemma {:induction false} RunKeepsBuckets(p: Limits, bs: Buckets, clock: real, es: seq<Event>)
    requires p.Valid() && BucketsOk(p, bs, clock) && Ordered(clock, es)
    ensures forall ip | ip in Final(p, bs, es) :: 0.0 <= Final(p, bs, es)[ip].tokens <= p.capacity
    decreases |es|
  {
    if es != [] {
      StepKeepsBuckets(p, bs, clock, es[0]);
      RunKeepsBuckets(p, After(p, bs, es[0]), es[0].at, es[1..]);
    }
  }

  // ----- Runs: deleting what does not matter -----

  // The events (or outcomes) of a sequence that a mask keeps.
  function Select<T>(s: seq<T>, mask: seq<bool>): (r: seq<T>)
    requires |s| == |mask|
  {
    if s == [] then [] else (if mask[0] then [s[0]] else []) + Select(s[1..], mask[1..])
  }

  lemma {:induction false} SelectLength<S, T>(s: seq<S>, t: seq<T>, mask: seq<bool>)
    requires |s| == |t| == |mask|
    ensures |Select(s, mask)| == |Select(t, mask)|
  {
    if s != [] {
      SelectLength(s[1..], t[1..], mask[1..]);
    }
  }

  // The outcomes seen by one address.
  function Observed(es: seq<Event>, os: seq<Outcome>, ip: string): seq<Outcome>
    requires |es| == |os|
  {
    if es == [] then []
    else (if es[0].Call? && es[0].ip == ip then [os[0]] else []) + Observed(es[1..], os[1..], ip)
  }

  // An event that may be dropped from a trace as far as `ip` is concerned.
  predicate Deletable(e: Event, o: Outcome, ip: string) {
    e.Sweep? || e.ip != ip || o == Denied
  }

  lemma OutcomesCons(p: Limits, bs: Buckets, e: Event, es: seq<Event>)
    ensures Outcomes(p, bs, [e] + es) == [Decide(p, bs, e)] + Outcomes(p, After(p, bs, e), es)
    ensures Final(p, bs, [e] + es) == Final(p, After(p, bs, e), es)
  {
    assert ([e] + es)[1..] == es;
  }

  lemma ObservedCons(e: Event, es: seq<Event>, o: Outcome, os: seq<Outcome>, ip: string)
    requires |es| == |os|
    ensures Observed([e] + es, [o] + os, ip)
         == (if e.Call? && e.ip == ip then [o] else []) + Observed(es, os, ip)
  {
    assert ([e] + es)[1..] == es && ([o] + os)[1..] == os;
  }

  lemma {:induction false} ThinningFrom(p: Limits, full: Buckets, thin: Buckets, clock: real,
                                        es: seq<Event>, mask: seq<bool>, ip: string)
    requires p.Valid() && BucketsOk(p, full, clock) && BucketsOk(p, thin, clock)
    requires Level(p, full, ip, clock) == Level(p, thin, ip, clock)
    requires Ordered(clock, es) && |mask| == |es|
    requires p.SweepSafe() || forall e | e in es :: e.Call?
    requires forall i | 0 <= i < |es| && !mask[i] :: Deletable(es[i], Outcomes(p, full, es)[i], ip)
    ensures |Select(es, mask)| == |Select(Outcomes(p, full, es), mask)|
    ensures Observed(Select(es, mask), Outcomes(p, thin, Select(es, mask)), ip)
         == Observed(Select(es, mask), Select(Outcomes(p, full, es), mask), ip)
    decreases |es|
  {
    SelectLength(es, Outcomes(p, full, es), mask);
    if es != [] {
      var e, rest, full' := es[0], es[1..], After(p, full, es[0]);
      var thin' := if mask[0] then After(p, thin, e) else thin;
      var os := Outcomes(p, full', rest);
      assert es == [e] + rest;
      OutcomesCons(p, full, e, rest);
      ThinningStep(p, full, thin, clock, e, mask[0], ip);
      forall i | 0 <= i < |rest| && !mask[1..][i] ensures Deletable(rest[i], os[i], ip) {
        assert !mask[i + 1] && Deletable(es[i + 1], Outcomes(p, full, es)[i + 1], ip);
      }
      ThinningFrom(p, full', thin', e.at, rest, mask[1..], ip);
      var kept, keptOs := Select(rest, mask[1..]), Select(os, mask[1..]);
      if mask[0] {
        OutcomesCons(p, thin, e, kept);
        ObservedCons(e, kept, Decide(p, thin, e), Outcomes(p, thin', kept), ip);
        ObservedCons(e, kept, Decide(p, full, e), keptOs, ip);
      } else {
        assert Select(es, mask) == kept && Select([Decide(p, full, e)] + os, mask) == keptOs;
      }
    }
  }

  lemma ThinningStep(p: Limits, full: Buckets, thin: Buckets, clock: real, e: Event, keep: bool, ip: string)
    requires p.Valid() && BucketsOk(p, full, clock) && BucketsOk(p, thin, clock) && clock <= e.at
    requires Level(p, full, ip, clock) == Level(p, thin, ip, clock)
    requires p.SweepSafe() || e.Call?
    requires !keep ==> Deletable(e, Decide(p, full, e), ip)
    ensures e.Call? && e.ip == ip ==> Decide(p, full, e) == Decide(p, thin, e)
    ensures var thin' := if keep then After(p, thin, e) else thin;
            && BucketsOk(p, After(p, full, e), e.at) && BucketsOk(p, thin', e.at)
            && Level(p, After(p, full, e), ip, e.at) == Level(p, thin', ip, e.at)
  {
    LevelLater(p, full, ip, clock, e.at);
    LevelLater(p, thin, ip, clock, e.at);
    hide Level, After, BucketsOk;
    assert Level(p, full, ip, e.at) == Level(p, thin, ip, e.at) by {
      LevelLater(p, full, ip, clock, e.at);
      LevelLater(p, thin, ip, clock, e.at);
    }
    StepKeepsBuckets(p, full, clock, e);
    StepLevel(p, full, clock, e, ip);
    if keep {
      StepKeepsBuckets(p, thin, clock, e);
      StepLevel(p, thin, clock, e, ip);
    } else {
      LaterBuckets(p, thin, clock, e.at);
    }
  }

  lemma LaterBuckets(p: Limits, bs: Buckets, t1: real, t2: real)
    requires BucketsOk(p, bs, t1) && t1 <= t2
    ensures BucketsOk(p, bs, t2)
  {
  }

  /** Denied calls are free and addresses are independent: from any trace one may delete denied
      calls, calls of other addresses and sweeps, and every decision left for `ip` is the same. */
  lemma DeletedEventsAreFree(p: Limits, clock: real, es: seq<Event>, mask: seq<bool>, ip: string)
    requires p.Valid() && Ordered(clock, es) && |mask| == |es|
    requires p.SweepSafe() || forall e | e in es :: e.Call?
    requires forall i | 0 <= i < |es| && !mask[i] :: Deletable(es[i], Outcomes(p, map[], es)[i], ip)
    ensures |Select(es, mask)| == |Select(Outcomes(p, map[], es), mask)|
    ensures Observed(Select(es, mask), Outcomes(p, map[], Select(es, mask)), ip)
         == Observed(Select(es, mask), Select(Outcomes(p, map[], es), mask), ip)
  {
    ThinningFrom(p, map[], map[], clock, es, mask, ip);
  }

  // ----- Runs: eviction -----

  function CallsOnly(es: seq<Event>): (cs: seq<Event>)
    ensures forall e | e in cs :: e.Call?
  {
    if es == [] then [] else (if es[0].Call? then [es[0]] else []) + CallsOnly(es[1..])
  }

  function CallMask(es: seq<Event>): (mask: seq<bool>)
    ensures |mask| == |es| && forall i | 0 <= i < |es| :: mask[i] == es[i].Call?
  {
    seq(|es|, i requires 0 <= i < |es| => es[i].Call?)
  }

  lemma {:induction false} SelectCalls(p: Limits, bs: Buckets, es: seq<Event>, os: seq<Outcome>, ip: string)
    requires |os| == |es|
    ensures Select(es, CallMask(es)) == CallsOnly(es)
    ensures |Select(os, CallMask(es))| == |CallsOnly(es)|
    ensures Observed(CallsOnly(es), Select(os, CallMask(es)), ip) == Observed(es, os, ip)
  {
    if es != [] {
      SelectCalls(p, bs, es[1..], os[1..], ip);
      assert CallMask(es)[1..] == CallMask(es[1..]);
      SelectLength(es[1..], os[1..], CallMask(es[1..]));
      if es[0].Call? {
        assert CallsOnly(es)[1..] == CallsOnly(es[1..]);
        assert Select(os, CallMask(es)) == [os[0]] + Select(os[1..], CallMask(es[1..]));
        assert Select(os, CallMask(es))[1..] == Select(os[1..], CallMask(es[1..]));
      } else {
        assert Select(os, CallMask(es)) == Select(os[1..], CallMask(es[1..]));
        assert CallsOnly(es) == CallsOnly(es[1..]);
      }
    }
  }

  // On this trace, `ip` is treated the same by the sweeping limiter and by one that never sweeps.
  ghost predicate SameDecisions(p: Limits, es: seq<Event>, ip: string) {
    Observed(es, Outcomes(p, map[], es), ip)
    == Observed(CallsOnly(es), Outcomes(p, map[], CallsOnly(es)), ip)
  }

  lemma EvictionUnobservable(p: Limits, clock: real, es: seq<Event>, ip: string)
    requires p.Valid() && Ordered(clock, es)
    requires p.SweepSafe()
    ensures SameDecisions(p, es, ip)
  {
    var os := Outcomes(p, map[], es);
    DeletedEventsAreFree(p, clock, es, CallMask(es), ip);
    SelectCalls(p, map[], es, os, ip);
  }

  // ----- Runs: the window bound -----

  // Calls of `ip` admitted at a time in [from, to].
  function AdmittedIn(es: seq<Event>, os: seq<Outcome>, ip: string, from: real, to: real): nat
    requires |es| == |os|
  {
    if es == [] then 0
    else
      (if es[0].Call? && es[0].ip == ip && os[0] == Admitted && from <= es[0].at <= to then 1 else 0)
      + AdmittedIn(es[1..], os[1..], ip, from, to)
  }

  lemma {:induction false} NoneAfter(clock: real, es: seq<Event>, os: seq<Outcome>, ip: string, from: real, to: real)
    requires |es| == |os| && Ordered(clock, es) && to < clock
    ensures AdmittedIn(es, os, ip, from, to) == 0
    decreases |es|
  {
    if es != [] {
      NoneAfter(es[0].at, es[1..], os[1..], ip, from, to);
    }
  }

  /** The tokens an address holds now, plus what trickles in, pay for everything it is admitted. */
  lemma {:induction false} PaidFor(p: Limits, bs: Buckets, clock: real, es: seq<Event>,
                                   ip: string, from: real, to: real)
    requires p.Valid() && BucketsOk(p, bs, clock) && Ordered(clock, es) && clock <= to
    requires p.SweepSafe() || forall e | e in es :: e.Call?
    ensures AdmittedIn(es, Outcomes(p, bs, es), ip, from, to) as real
         <= Level(p, bs, ip, clock) + Trickle(p, to - clock)
    decreases |es|
  {
    hide Level, After, Decide, BucketsOk, Trickle;
    LevelLater(p, bs, ip, clock, clock);
    TrickleNonNegative(p, to - clock);
    if es != [] {
      var e, rest, bs' := es[0], es[1..], After(p, bs, es[0]);
      var os := Outcomes(p, bs', rest);
      assert es == [e] + rest && e in es;
      OutcomesCons(p, bs, e, rest);
      if to < e.at {
        NoneAfter(e.at, rest, os, ip, from, to);
      } else {
        StepKeepsBuckets(p, bs, clock, e);
        LevelSpent(p, bs, clock, e, ip);
        PaidFor(p, bs', e.at, rest, ip, from, to);
        TrickleAdds(p, e.at - clock, to - e.at);
      }
    }
  }

  lemma LevelSpent(p: Limits, bs: Buckets, clock: real, e: Event, ip: string)
    requires p.Valid() && BucketsOk(p, bs, clock) && clock <= e.at
    requires p.SweepSafe() || e.Call?
    ensures Level(p, After(p, bs, e), ip, e.at)
         <= Level(p, bs, ip, clock) + Trickle(p, e.at - clock)
            - (if e.Call? && e.ip == ip && Decide(p, bs, e) == Admitted then 1.0 else 0.0)
  {
    LevelLater(p, bs, ip, clock, e.at);
    StepLevel(p, bs, clock, e, ip);
  }

  lemma {:induction false} WindowBoundFrom(p: Limits, bs: Buckets, clock: real, es: seq<Event>,
                                           ip: string, from: real, to: real)
    requires p.Valid() && BucketsOk(p, bs, clock) && Ordered(clock, es) && clock <= from <= to
    requires p.SweepSafe() || forall e | e in es :: e.Call?
    ensures AdmittedIn(es, Outcomes(p, bs, es), ip, from, to) as real <= p.capacity + Trickle(p, to - from)
    decreases |es|
  {
    if es != [] && es[0].at < from {
      assert es[0] in es;
      StepKeepsBuckets(p, bs, clock, es[0]);
      assert Outcomes(p, bs, es)[1..] == Outcomes(p, After(p, bs, es[0]), es[1..]);
      WindowBoundFrom(p, After(p, bs, es[0]), es[0].at, es[1..], ip, from, to);
    } else {
      LevelLater(p, bs, ip, clock, from);
      PaidFor(p, bs, from, es, ip, from, to);
    }
  }

  /** No window [from, to] of any run admits more than capacity + refill * (to - from) calls of
      one address. */
  lemma WindowBound(p: Limits, clock: real, es: seq<Event>, ip: string, from: real, to: real)
    requires p.Valid() && Ordered(clock, es) && from <= to
    requires p.SweepSafe() || forall e | e in es :: e.Call?
    ensures AdmittedIn(es, Outcomes(p, map[], es), ip, from, to) as real <= p.capacity + (to - from) * p.refill
  {
    hide Level, After, Decide;
    WindowBoundFrom(p, map[], Min(clock, from), es, ip, from, to);
  }

  // ----- The sweep threshold is exact -----

  lemma {:induction false} AlwaysDenied(p: Limits, bs: Buckets, es: seq<Event>, ip: string)
    requires p.capacity < 1.0
    ensures Observed(es, Outcomes(p, bs, es), ip) == DeniedOnly(es, ip)
    decreases |es|
  {
    if es != [] {
      AlwaysDenied(p, After(p, bs, es[0]), es[1..], ip);
      assert Outcomes(p, bs, es)[1..] == Outcomes(p, After(p, bs, es[0]), es[1..]);
    }
  }

  function DeniedOnly(es: seq<Event>, ip: string): seq<Outcome> {
    if es == [] then []
    else (if es[0].Call? && es[0].ip == ip then [Denied] else []) + DeniedOnly(es[1..], ip)
  }

  lemma {:induction false} DeniedOnlyCalls(es: seq<Event>, ip: string)
    ensures DeniedOnly(CallsOnly(es), ip) == DeniedOnly(es, ip)
  {
    if es != [] {
      DeniedOnlyCalls(es[1..], ip);
      if es[0].Call? {
        assert CallsOnly(es)[1..] == CallsOnly(es[1..]);
      } else {
        assert CallsOnly(es) == CallsOnly(es[1..]);
      }
    }
  }

  // The trace of calls `es` is decided differently from the two states.
  ghost predicate Distinguishes(p: Limits, a: Buckets, b: Buckets, clock: real, es: seq<Event>, ip: string) {
    && Ordered(clock, es) && CallsOnly(es) == es
    && Observed(es, Outcomes(p, a, es), ip) != Observed(es, Outcomes(p, b, es), ip)
  }

  lemma ConsDistinguishes(p: Limits, a: Buckets, b: Buckets, clock: real, e: Event, es: seq<Event>, ip: string)
    requires e.Call? && e.ip == ip && clock <= e.at
    requires Decide(p, a, e) == Decide(p, b, e)
    requires Distinguishes(p, After(p, a, e), After(p, b, e), e.at, es, ip)
    ensures Distinguishes(p, a, b, clock, [e] + es, ip)
  {
    assert ([e] + es)[1..] == es;
    OutcomesCons(p, a, e, es);
    OutcomesCons(p, b, e, es);
    var osA, osB := Outcomes(p, After(p, a, e), es), Outcomes(p, After(p, b, e), es);
    ObservedCons(e, es, Decide(p, a, e), osA, ip);
    ObservedCons(e, es, Decide(p, b, e), osB, ip);
    assert ([Decide(p, a, e)] + Observed(es, osA, ip))[1..] == Observed(es, osA, ip);
    assert ([Decide(p, b, e)] + Observed(es, osB, ip))[1..] == Observed(es, osB, ip);
  }

  lemma OneCallDistinguishes(p: Limits, a: Buckets, b: Buckets, clock: real, e: Event)
    requires e.Call? && clock <= e.at && Decide(p, a, e) != Decide(p, b, e)
    ensures Distinguishes(p, a, b, clock, [e], e.ip)
  {
    assert CallsOnly([e]) == [e];
    assert Observed([e], Outcomes(p, a, [e]), e.ip) == [Decide(p, a, e)];
    assert Observed([e], Outcomes(p, b, [e]), e.ip) == [Decide(p, b, e)];
  }

  /** Two states that differ in one address's level can be told apart by that address's calls. */
  lemma {:induction false} LevelsMatter(p: Limits, a: Buckets, b: Buckets, clock: real, ip: string)
    returns (es: seq<Event>)
    requires p.Valid() && 1.0 <= p.capacity && BucketsOk(p, a, clock) && BucketsOk(p, b, clock)
    requires Level(p, a, ip, clock) < Level(p, b, ip, clock)
    requires 0.0 < p.refill || 1.0 <= Level(p, b, ip, clock)
    requires 0.0 < p.refill || Level(p, a, ip, clock) < 1.0
    ensures Distinguishes(p, a, b, clock, es, ip)
    decreases Level(p, a, ip, clock).Floor
  {
    hide Level, Trickle;
    LevelLater(p, a, ip, clock, clock);
    LevelLater(p, b, ip, clock, clock);
    var now := Call(ip, clock);
    if Level(p, b, ip, clock) < 1.0 {
      var wait := WaitFor(p, 1.0 - Level(p, b, ip, clock));
      LevelLater(p, a, ip, clock, clock + wait);
      LevelLater(p, b, ip, clock, clock + wait);
      es := [Call(ip, clock + wait)];
      OneCallDistinguishes(p, a, b, clock, es[0]);
    } else if Level(p, a, ip, clock) < 1.0 {
      es := [now];
      OneCallDistinguishes(p, a, b, clock, now);
    } else {
      StepKeepsBuckets(p, a, clock, now);
      StepKeepsBuckets(p, b, clock, now);
      StepLevel(p, a, clock, now, ip);
      StepLevel(p, b, clock, now, ip);
      var rest := LevelsMatter(p, After(p, a, now), After(p, b, now), clock, ip);
      es := [now] + rest;
      ConsDistinguishes(p, a, b, clock, now, rest, ip);
    }
  }

  // A drained address: its bucket was touched just now and cannot pay for `IDLE_SECONDS` of sleep
  // unless sleeping refills it.
  ghost predicate Drained(p: Limits, bs: Buckets, clock: real, ip: string) {
    ip in bs && bs[ip].lastRefill == clock
    && (if 0.0 < p.refill then bs[ip].tokens == 0.0 else bs[ip].tokens < 1.0)
  }

  // The time of the last event of a trace.
  function End(clock: real, es: seq<Event>): real
    decreases |es|
  {
    if es == [] then clock else End(es[0].at, es[1..])
  }

  lemma {:induction false} OrderedRuns(clock: real, es: seq<Event>, more: seq<Event>)
    requires Ordered(clock, es) && Ordered(End(clock, es), more)
    ensures Ordered(clock, es + more)
    decreases |es|
  {
    if es == [] {
      assert es + more == more;
    } else {
      assert (es + more)[1..] == es[1..] + more;
      OrderedRuns(es[0].at, es[1..], more);
    }
  }

  // Nothing has been lost to the cap: what the run admitted the address is what it held and gained.
  ghost predicate SpendsAll(p: Limits, bs: Buckets, clock: real, es: seq<Event>, ip: string) {
    var end := End(clock, es);
    forall to | end <= to ::
      AdmittedIn(es, Outcomes(p, bs, es), ip, 0.0, to) as real
      == Level(p, bs, ip, clock) + Trickle(p, end - clock) - Level(p, Final(p, bs, es), ip, end)
  }

  lemma SpendsOnce(p: Limits, bs: Buckets, clock: real, e: Event, rest: seq<Event>, ip: string)
    requires 0.0 <= clock <= e.at && e.Call? && e.ip == ip && Ordered(e.at, rest)
    requires Level(p, After(p, bs, e), ip, e.at)
          == Level(p, bs, ip, clock) + Trickle(p, e.at - clock) - (if Decide(p, bs, e) == Admitted then 1.0 else 0.0)
    requires SpendsAll(p, After(p, bs, e), e.at, rest, ip)
    ensures SpendsAll(p, bs, clock, [e] + rest, ip)
  {
    hide Level, After, Decide, Trickle;
    var es, bs' := [e] + rest, After(p, bs, e);
    var end := End(e.at, rest);
    assert es[1..] == rest;
    OutcomesCons(p, bs, e, rest);
    TrickleAdds(p, e.at - clock, end - e.at);
    EndIsLater(e.at, rest);
    forall to | end <= to
      ensures AdmittedIn(es, Outcomes(p, bs, es), ip, 0.0, to) as real
           == Level(p, bs, ip, clock) + Trickle(p, end - clock) - Level(p, Final(p, bs, es), ip, end)
    {
      assert AdmittedIn(es, Outcomes(p, bs, es), ip, 0.0, to)
          == (if Decide(p, bs, e) == Admitted then 1 else 0) + AdmittedIn(rest, Outcomes(p, bs', rest), ip, 0.0, to);
    }
  }

  lemma {:induction false} EndIsLater(clock: real, es: seq<Event>)
    requires Ordered(clock, es)
    ensures clock <= End(clock, es)
    decreases |es|
  {
    if es != [] {
      EndIsLater(es[0].at, es[1..]);
    }
  }

  lemma SpendsNothing(p: Limits, bs: Buckets, clock: real, ip: string)
    ensures SpendsAll(p, bs, clock, [], ip)
  {
    TrickleAdds(p, 0.0, 0.0);
  }

  /** From any state, one address can spend itself empty, losing nothing to the cap. */
  lemma {:induction false} CanDrain(p: Limits, bs: Buckets, clock: real, ip: string)
    returns (es: seq<Event>)
    requires p.Valid() && 1.0 <= p.capacity && BucketsOk(p, bs, clock) && 0.0 <= clock
    ensures Ordered(clock, es) && CallsOnly(es) == es && SpendsAll(p, bs, clock, es, ip)
    ensures Drained(p, Final(p, bs, es), End(clock, es), ip) && BucketsOk(p, Final(p, bs, es), End(clock, es))
    decreases Level(p, bs, ip, clock).Floor
  {
    LevelLater(p, bs, ip, clock, clock);
    if 1.0 <= Level(p, bs, ip, clock) {
      hide Level, After, BucketsOk, Drained, SpendsAll;
      var e := Call(ip, clock);
      StepKeepsBuckets(p, bs, clock, e);
      StepLevel(p, bs, clock, e, ip);
      TrickleAdds(p, 0.0, 0.0);
      var rest := CanDrain(p, After(p, bs, e), clock, ip);
      es := [e] + rest;
      assert es[1..] == rest;
      SpendsOnce(p, bs, clock, e, rest, ip);
    } else {
      hide Level, After, BucketsOk, Drained, SpendsAll;
      var e := LastToken(p, bs, clock, ip);
      es := [e];
      assert es[1..] == [] && [e] + [] == es;
      SpendsNothing(p, After(p, bs, e), e.at, ip);
      SpendsOnce(p, bs, clock, e, [], ip);
    }
  }

  // Below one token, waiting until exactly one has trickled in and taking it leaves none.
  lemma LastToken(p: Limits, bs: Buckets, clock: real, ip: string) returns (e: Event)
    requires p.Valid() && 1.0 <= p.capacity && BucketsOk(p, bs, clock) && Level(p, bs, ip, clock) < 1.0
    ensures e.Call? && e.ip == ip && clock <= e.at
    ensures Drained(p, After(p, bs, e), e.at, ip) && BucketsOk(p, After(p, bs, e), e.at)
    ensures Level(p, After(p, bs, e), ip, e.at)
         == Level(p, bs, ip, clock) + Trickle(p, e.at - clock) - (if Decide(p, bs, e) == Admitted then 1.0 else 0.0)
  {
    hide Trickle;
    var wait := 0.0;
    TrickleAdds(p, 0.0, 0.0);
    if 0.0 < p.refill {
      wait := WaitFor(p, 1.0 - Level(p, bs, ip, clock));
    }
    e := Call(ip, clock + wait);
    LevelLater(p, bs, ip, clock, e.at);
    StepLevel(p, bs, clock, e, ip);
    hide Level;
    StepKeepsBuckets(p, bs, clock, e);
  }

  lemma {:induction false} CallsCompose(es: seq<Event>, more: seq<Event>)
    ensures CallsOnly(es + more) == CallsOnly(es) + CallsOnly(more)
  {
    if es == [] {
      assert es + more == more;
    } else {
      assert (es + more)[1..] == es[1..] + more;
      CallsCompose(es[1..], more);
    }
  }

  lemma {:induction false} RunsCompose(p: Limits, bs: Buckets, es: seq<Event>, more: seq<Event>, ip: string)
    ensures Observed(es + more, Outcomes(p, bs, es + more), ip)
         == Observed(es, Outcomes(p, bs, es), ip) + Observed(more, Outcomes(p, Final(p, bs, es), more), ip)
    decreases |es|
  {
    hide Level, After, Decide;
    if es == [] {
      assert es + more == more;
    } else {
      var e, rest, bs' := es[0], es[1..], After(p, bs, es[0]);
      var tail, d := rest + more, Decide(p, bs, es[0]);
      var head := if e.Call? && e.ip == ip then [d] else [];
      assert es == [e] + rest && es + more == [e] + tail;
      var x := Observed(rest, Outcomes(p, bs', rest), ip);
      var y := Observed(more, Outcomes(p, Final(p, bs', rest), more), ip);
      calc {
        Observed(es + more, Outcomes(p, bs, es + more), ip);
        { OutcomesCons(p, bs, e, tail); ObservedCons(e, tail, d, Outcomes(p, bs', tail), ip); }
        head + Observed(tail, Outcomes(p, bs', tail), ip);
        { RunsCompose(p, bs', rest, more, ip); }
        head + (x + y);
        { assert head + (x + y) == (head + x) + y; }
        (head + x) + y;
        { OutcomesCons(p, bs, e, rest); ObservedCons(e, rest, d, Outcomes(p, bs', rest), ip); }
        Observed(es, Outcomes(p, bs, es), ip) + y;
      }
    }
  }

  /** Below the threshold the sweep shows: a drained address that sleeps through it comes back full. */
  lemma SweepShows(p: Limits, ip: string) returns (es: seq<Event>)
    requires p.Valid() && !p.SweepSafe() && 1.0 <= p.capacity
    ensures Ordered(0.0, es) && !SameDecisions(p, es, ip)
  {
    hide Level, After, Decide, Drained, SpendsAll, LongNap;
    assert BucketsOk(p, map[], 0.0);
    var drain := CanDrain(p, map[], 0.0, ip);
    var end, bs := End(0.0, drain), Final(p, map[], drain);
    var sleep := LongNap(p);
    var sweep := Sweep(end + sleep);
    NapIsTooShort(p, bs, end, ip);
    StepKeepsBuckets(p, bs, end, sweep);
    var swept := After(p, bs, sweep);
    var rest := LevelsMatter(p, bs, swept, sweep.at, ip);
    es := drain + ([sweep] + rest);
    SweepThenCalls(p, drain, sweep, rest, ip);
  }

  lemma SweepThenCalls(p: Limits, drain: seq<Event>, sweep: Event, rest: seq<Event>, ip: string)
    requires Ordered(0.0, drain) && CallsOnly(drain) == drain
    requires sweep.Sweep? && End(0.0, drain) <= sweep.at
    requires var bs := Final(p, map[], drain);
             Distinguishes(p, bs, After(p, bs, sweep), sweep.at, rest, ip)
    ensures Ordered(0.0, drain + ([sweep] + rest)) && !SameDecisions(p, drain + ([sweep] + rest), ip)
  {
    hide Level, After, Decide;
    var tail, bs := [sweep] + rest, Final(p, map[], drain);
    var swept := After(p, bs, sweep);
    assert tail[1..] == rest;
    OrderedRuns(0.0, drain, tail);
    RunsCompose(p, map[], drain, tail, ip);
    RunsCompose(p, map[], drain, rest, ip);
    CallsCompose(drain, tail);
    OutcomesCons(p, bs, sweep, rest);
    ObservedCons(sweep, rest, Decide(p, bs, sweep), Outcomes(p, swept, rest), ip);
    assert CallsOnly(tail) == rest && CallsOnly(drain + tail) == drain + rest;
    var head := Observed(drain, Outcomes(p, map[], drain), ip);
    var x, y := Observed(rest, Outcomes(p, swept, rest), ip), Observed(rest, Outcomes(p, bs, rest), ip);
    assert (head + x)[|head|..] == x && (head + y)[|head|..] == y;
  }

  // Long enough to be swept; too short to refill a bucket, when fifteen minutes are.
  function LongNap(p: Limits): real {
    if 0.0 < p.refill then IDLE_SECONDS + (p.capacity - p.refill * IDLE_SECONDS) / (2.0 * p.refill)
    else IDLE_SECONDS + 1.0
  }

  lemma NapIsTooShort(p: Limits, bs: Buckets, end: real, ip: string)
    requires p.Valid() && !p.SweepSafe() && 1.0 <= p.capacity && BucketsOk(p, bs, end) && Drained(p, bs, end, ip)
    ensures IDLE_SECONDS < LongNap(p)
    ensures var sleep := LongNap(p); var swept := After(p, bs, Sweep(end + sleep));
            && Level(p, bs, ip, end + sleep) < Level(p, swept, ip, end + sleep) == p.capacity
            && (p.refill == 0.0 ==> Level(p, bs, ip, end + sleep) < 1.0)
            && BucketsOk(p, bs, end + sleep) && (0.0 < p.refill ==> Trickle(p, sleep) < p.capacity)
  {
    var sleep := LongNap(p);
    if 0.0 < p.refill {
      HalfGap(p.capacity, p.refill, IDLE_SECONDS);
    }
    var swept := After(p, bs, Sweep(end + sleep));
    assert end + sleep - bs[ip].lastRefill == sleep;
    assert Trickle(p, sleep) == sleep * p.refill;
    assert ip !in swept;
  }

  lemma HalfGap(c: real, r: real, idle: real)
    requires 0.0 < r && r * idle < c
    ensures var gap := (c - r * idle) / (2.0 * r);
            0.0 < gap && (idle + gap) * r == (c + r * idle) / 2.0
  {
    var gap := (c - r * idle) / (2.0 * r);
    assert gap * (2.0 * r) == c - r * idle;
  }

  // On every trace and for every address, forgetting idle buckets changes no decision.
  ghost predicate EvictionInvisible(p: Limits) {
    forall es, ip | Ordered(0.0, es) :: SameDecisions(p, es, ip)
  }

  /** The sweep is unobservable exactly when an idle bucket has time to refill completely (or when
      the capacity is too small for any call to be admitted at all). */
  lemma EvictionInvisibleExactly(p: Limits)
    requires p.Valid()
    ensures EvictionInvisible(p) <==> p.SweepSafe() || p.capacity < 1.0
  {
    if p.SweepSafe() || p.capacity < 1.0 {
      forall es, ip | Ordered(0.0, es) ensures SameDecisions(p, es, ip) {
        if p.SweepSafe() {
          EvictionUnobservable(p, 0.0, es, ip);
        } else {
          AlwaysDenied(p, map[], es, ip);
          AlwaysDenied(p, map[], CallsOnly(es), ip);
          DeniedOnlyCalls(es, ip);
        }
      }
    } else {
      var es := SweepShows(p, "");
      assert !SameDecisions(p, es, "");
    }
  }
}
