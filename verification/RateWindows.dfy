/** The rate limiter's window bound with the idle-bucket sweep running: when it holds. */
module RateWindows {
  import opened RateLimiter

  ghost predicate WindowHolds(p: Limits, es: seq<Event>, ip: string, from: real, to: real) {
    AdmittedIn(es, Outcomes(p, map[], es), ip, from, to) as real <= p.capacity + Trickle(p, to - from)
  }

  // On every trace, sweeps included, no window admits an address more than its budget.
  ghost predicate WindowAlwaysHolds(p: Limits) {
    forall es, ip, from, to | Ordered(0.0, es) && from <= to :: WindowHolds(p, es, ip, from, to)
  }

  lemma {:induction false} OutcomesJoin(p: Limits, bs: Buckets, es: seq<Event>, more: seq<Event>)
    ensures Outcomes(p, bs, es + more) == Outcomes(p, bs, es) + Outcomes(p, Final(p, bs, es), more)
    decreases |es|
  {
    hide After, Decide;
    if es == [] {
      assert es + more == more;
    } else {
      assert (es + more)[1..] == es[1..] + more;
      OutcomesJoin(p, After(p, bs, es[0]), es[1..], more);
    }
  }

  lemma {:induction false} AdmittedJoin(es: seq<Event>, more: seq<Event>, os: seq<Outcome>, os': seq<Outcome>,
                                        ip: string, from: real, to: real)
    requires |es| == |os| && |more| == |os'|
    ensures AdmittedIn(es + more, os + os', ip, from, to)
         == AdmittedIn(es, os, ip, from, to) + AdmittedIn(more, os', ip, from, to)
  {
    if es == [] {
      assert es + more == more && os + os' == os';
    } else {
      assert (es + more)[1..] == es[1..] + more && (os + os')[1..] == os[1..] + os';
      AdmittedJoin(es[1..], more, os[1..], os', ip, from, to);
    }
  }

  // A run, a sweep and another run admit what the two runs do.
  lemma AroundSweep(p: Limits, es: seq<Event>, sweep: Event, more: seq<Event>, ip: string, to: real)
    requires sweep.Sweep?
    ensures var bs := Final(p, map[], es);
            AdmittedIn(es + ([sweep] + more), Outcomes(p, map[], es + ([sweep] + more)), ip, 0.0, to)
            == AdmittedIn(es, Outcomes(p, map[], es), ip, 0.0, to)
               + AdmittedIn(more, Outcomes(p, After(p, bs, sweep), more), ip, 0.0, to)
  {
    hide After, Decide;
    var bs, tail := Final(p, map[], es), [sweep] + more;
    OutcomesJoin(p, map[], es, tail);
    AdmittedJoin(es, tail, Outcomes(p, map[], es), Outcomes(p, bs, tail), ip, 0.0, to);
    OutcomesCons(p, bs, sweep, more);
    assert tail[1..] == more;
  }

  // Spending all, sleeping through a sweep and spending all again beats the budget.
  lemma TooMuch(capacity: real, before: real, nap: real, later: real, left: real, left': real, first: int, second: int)
    requires 1.0 <= capacity
    requires first as real == capacity + before - left && second as real == capacity + later - left'
    requires (left == left' == 0.0 && nap < capacity) || (left < 1.0 && left' < 1.0 && before == nap == later == 0.0)
    ensures (first + second) as real > capacity + (before + nap + later)
  {
    if !(left == left' == 0.0 && nap < capacity) {
      assert second as real > 0.0;
    }
  }

  /** Without a full refill in fifteen minutes, an address beats the bound by sleeping through a sweep. */
  lemma SweepBreaksWindow(p: Limits, ip: string) returns (es: seq<Event>, to: real)
    requires p.Valid() && !p.SweepSafe() && 1.0 <= p.capacity
    ensures Ordered(0.0, es) && 0.0 <= to && !WindowHolds(p, es, ip, 0.0, to)
  {
    hide Trickle, Level, After, Decide, Drained, LongNap, SpendsAll, BucketsOk, AdmittedIn, Outcomes, Final;
    var nap := LongNap(p);
    StartOk(p);
    var drain := CanDrain(p, map[], 0.0, ip);
    var end, bs := End(0.0, drain), Final(p, map[], drain);
    EndIsLater(0.0, drain);
    NapIsTooShort(p, bs, end, ip);
    var sweep := Sweep(end + nap);
    StepKeepsBuckets(p, bs, end, sweep);
    var swept := After(p, bs, sweep);
    var again := CanDrain(p, swept, sweep.at, ip);
    EndIsLater(sweep.at, again);
    to := End(sweep.at, again);
    es := drain + ([sweep] + again);
    SweepOrdered(drain, sweep, again);
    AroundSweep(p, drain, sweep, again, ip, to);
    var empty := Final(p, swept, again);
    DrainedLevel(p, bs, end, ip);
    DrainedLevel(p, empty, to, ip);
    TrickleParts(p, end, nap, to);
    Spent(p, map[], 0.0, drain, ip, to);
    Spent(p, swept, sweep.at, again, ip, to);
    TooMuch(p.capacity, Trickle(p, end - 0.0), Trickle(p, nap), Trickle(p, to - sweep.at),
            Level(p, bs, ip, end), Level(p, empty, ip, to),
            AdmittedIn(drain, Outcomes(p, map[], drain), ip, 0.0, to),
            AdmittedIn(again, Outcomes(p, swept, again), ip, 0.0, to));
  }

  lemma Spent(p: Limits, bs: Buckets, clock: real, es: seq<Event>, ip: string, to: real)
    requires SpendsAll(p, bs, clock, es, ip) && End(clock, es) <= to
    ensures var end := End(clock, es);
            AdmittedIn(es, Outcomes(p, bs, es), ip, 0.0, to) as real
            == Level(p, bs, ip, clock) + Trickle(p, end - clock) - Level(p, Final(p, bs, es), ip, end)
  {
    hide Level, Trickle, AdmittedIn, Outcomes, Final;
  }

  lemma SweepOrdered(es: seq<Event>, sweep: Event, more: seq<Event>)
    requires Ordered(0.0, es) && sweep.Sweep? && End(0.0, es) <= sweep.at && Ordered(sweep.at, more)
    ensures Ordered(0.0, es + ([sweep] + more))
  {
    assert ([sweep] + more)[1..] == more;
    OrderedRuns(0.0, es, [sweep] + more);
  }

  lemma StartOk(p: Limits)
    ensures BucketsOk(p, map[], 0.0) && forall ip :: Level(p, map[], ip, 0.0) == p.capacity
  {
  }

  lemma TrickleParts(p: Limits, end: real, nap: real, to: real)
    ensures Trickle(p, to - 0.0) == Trickle(p, end - 0.0) + Trickle(p, nap) + Trickle(p, to - (end + nap))
    ensures p.refill == 0.0 ==> Trickle(p, end - 0.0) == Trickle(p, nap) == Trickle(p, to - (end + nap)) == 0.0
  {
    TrickleAdds(p, end, nap);
    TrickleAdds(p, end + nap, to - (end + nap));
  }

  lemma DrainedLevel(p: Limits, bs: Buckets, clock: real, ip: string)
    requires p.Valid() && 1.0 <= p.capacity && Drained(p, bs, clock, ip)
    ensures if 0.0 < p.refill then Level(p, bs, ip, clock) == 0.0 else Level(p, bs, ip, clock) < 1.0
  {
    hide Refilled;
    RefillNow(p, bs[ip]);
  }

  lemma {:induction false} NoneAdmitted(p: Limits, bs: Buckets, es: seq<Event>, ip: string, from: real, to: real)
    requires p.capacity < 1.0
    ensures AdmittedIn(es, Outcomes(p, bs, es), ip, from, to) == 0
    decreases |es|
  {
    if es != [] {
      NoneAdmitted(p, After(p, bs, es[0]), es[1..], ip, from, to);
    }
  }

  /** With sweeps interleaved anywhere, no window ever admits more than capacity + refill * length exactly
      when fifteen minutes refill a bucket, or the capacity admits no call at all. */
  lemma WindowBoundExactly(p: Limits)
    requires p.Valid()
    ensures WindowAlwaysHolds(p) <==> p.SweepSafe() || p.capacity < 1.0
  {
    if p.SweepSafe() || p.capacity < 1.0 {
      forall es, ip, from, to | Ordered(0.0, es) && from <= to ensures WindowHolds(p, es, ip, from, to) {
        if p.SweepSafe() {
          WindowBound(p, 0.0, es, ip, from, to);
        } else {
          NoneAdmitted(p, map[], es, ip, from, to);
          TrickleNonNegative(p, to - from);
        }
      }
    } else {
      var es, to := SweepBreaksWindow(p, "");
      assert !WindowHolds(p, es, "", 0.0, to);
    }
  }
}
