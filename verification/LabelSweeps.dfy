/** The retry schedule of the label sweep (backend/internal_jobs.go): how soon, how often and how far
    apart the sweep retries an order. */
module LabelSweeps {
  import opened Wrappers
  import Stock
  import opened Orders
  import opened LabelJobs
  import opened Shop
  import opened ShopInvariants

  /** One call of the sweep endpoint. */
  datatype Round = Round(now: int, limit: int, picked: seq<string>, visits: seq<Visit>)

  ghost predicate RoundPossible(w: World, r: Round) {
    SweepPossible(w, r.now, r.limit, r.picked, r.visits)
  }

  function AfterRound(w: World, r: Round): World
    requires |r.visits| == |r.picked|
  {
    SweepStep(w, r.picked, r.visits)
  }

  ghost predicate RoundsPossible(w: World, rounds: seq<Round>)
    decreases |rounds|
  {
    rounds == [] || (RoundPossible(w, rounds[0]) && RoundsPossible(AfterRound(w, rounds[0]), rounds[1..]))
  }

  // When the job of a visit records a failure on the row.
  predicate FailureRecorded(o: Order, v: Visit) {
    !Cooling(o, v.started) && Job(o, v.env).failed.Some? && v.env.recorded
  }

  // The instants at which the sweep records a failure on an order.
  function FailuresIn(w: World, picked: seq<string>, visits: seq<Visit>, id: string): seq<int>
    requires |visits| == |picked|
  {
    if picked == [] then []
    else
      var n := |picked| - 1;
      var before := SweepStep(w, picked[..n], visits[..n]);
      FailuresIn(w, picked[..n], visits[..n], id)
      + (if picked[n] == id && id in before.orders && FailureRecorded(before.orders[id], visits[n])
         then [visits[n].env.at] else [])
  }

  ghost function Failures(w: World, rounds: seq<Round>, id: string): seq<int>
    requires RoundsPossible(w, rounds)
    decreases |rounds|
  {
    if rounds == [] then []
    else FailuresIn(w, rounds[0].picked, rounds[0].visits, id) + Failures(AfterRound(w, rounds[0]), rounds[1..], id)
  }

  // Successive failures, the first of them number k + 1, are at least the backoff apart.
  predicate Spaced(k: nat, times: seq<int>) {
    forall i | 0 <= i < |times| - 1 :: times[i + 1] - times[i] >= Backoff(k + i + 1)
  }

  // What the row says about the failures recorded on it since it had k.
  predicate Remembers(o: Order, k: nat, times: seq<int>) {
    && o.attempts == k + |times|
    && (times != [] ==>
          && o.attemptedAt.Some? && times[|times| - 1] <= o.attemptedAt.value && o.attempts <= MAX_LABEL_ATTEMPTS)
    && Spaced(k, times)
  }

  // A visit changes at most the row it visits.
  lemma VisitElsewhere(w: World, id: string, v: Visit, other: string)
    requires id != other
    ensures other in VisitStep(w, id, v).orders <==> other in w.orders
    ensures other in w.orders ==> VisitStep(w, id, v).orders[other] == w.orders[other]
  {
    hide Job, Cooling;
  }

  /** When the sweep reaches a row it is still as the query saw it. */
  lemma {:induction false} RowsWaitUntouched(w: World, picked: seq<string>, visits: seq<Visit>, id: string)
    requires |visits| == |picked| && id !in picked
    ensures id in SweepStep(w, picked, visits).orders <==> id in w.orders
    ensures id in w.orders ==> SweepStep(w, picked, visits).orders[id] == w.orders[id]
  {
    hide VisitStep;
    if picked != [] {
      var n := |picked| - 1;
      assert picked[n] in picked;
      RowsWaitUntouched(w, picked[..n], visits[..n], id);
      VisitElsewhere(SweepStep(w, picked[..n], visits[..n]), picked[n], visits[n], id);
    }
  }

  lemma VisitRemembers(w: World, id: string, v: Visit, k: nat, times: seq<int>)
    requires id in w.orders && Remembers(w.orders[id], k, times)
    requires w.orders[id].attempts < MAX_LABEL_ATTEMPTS && v.started <= v.env.at
    ensures id in VisitStep(w, id, v).orders
    ensures Remembers(VisitStep(w, id, v).orders[id], k,
                      times + (if FailureRecorded(w.orders[id], v) then [v.env.at] else []))
  {
    hide Backoff;
    assert forall n: int :: 0 <= Backoff(n);
    JobRow(w.orders[id], v.env);
    hide Job;
    assert times + [] == times;
  }

  // What a job may leave in the bookkeeping columns.
  lemma JobRow(o: Order, env: JobEnv)
    ensures var j := Job(o, env);
            && (j.failed.Some? && env.recorded ==>
                  && j.row.attempts == o.attempts + 1 && j.row.attemptedAt == Some(env.at))
            && ((j.failed.Some? && env.recorded) || j.row.attempts == o.attempts)
            && (j.row.attemptedAt == o.attemptedAt || j.row.attemptedAt == Some(env.at))
  {
    hide BlockedBefore;
  }

  lemma {:induction false} SweepRemembers(w: World, now: int, limit: int, picked: seq<string>, visits: seq<Visit>,
                                          id: string, k: nat, times: seq<int>, n: nat)
    requires SweepPossible(w, now, limit, picked, visits) && n <= |picked|
    requires id in w.orders && Remembers(w.orders[id], k, times)
    ensures var w' := SweepStep(w, picked[..n], visits[..n]);
            id in w'.orders && Remembers(w'.orders[id], k, times + FailuresIn(w, picked[..n], visits[..n], id))
  {
    hide Remembers, VisitStep, FailureRecorded;
    if n == 0 {
      assert times + [] == times;
    } else {
      SweepRemembers(w, now, limit, picked, visits, id, k, times, n - 1);
      var before := SweepStep(w, picked[..n - 1], visits[..n - 1]);
      assert picked[..n][..n - 1] == picked[..n - 1] && visits[..n][..n - 1] == visits[..n - 1];
      var soFar := times + FailuresIn(w, picked[..n - 1], visits[..n - 1], id);
      if picked[n - 1] == id {
        RowsWaitUntouched(w, picked[..n - 1], visits[..n - 1], id);
        VisitRemembers(before, id, visits[n - 1], k, soFar);
        assert times + FailuresIn(w, picked[..n], visits[..n], id)
            == soFar + (if FailureRecorded(before.orders[id], visits[n - 1]) then [visits[n - 1].env.at] else []);
      } else {
        VisitElsewhere(before, picked[n - 1], visits[n - 1], id);
        assert FailuresIn(w, picked[..n], visits[..n], id) == FailuresIn(w, picked[..n - 1], visits[..n - 1], id);
      }
    }
  }

  lemma {:induction false} RoundsRemember(w: World, rounds: seq<Round>, id: string, k: nat, times: seq<int>)
    returns (end: Order)
    requires RoundsPossible(w, rounds) && id in w.orders && Remembers(w.orders[id], k, times)
    ensures Remembers(end, k, times + Failures(w, rounds, id))
    decreases |rounds|
  {
    hide Remembers, FailuresIn, SweepStep, SweepPossible;
    if rounds == [] {
      assert times + [] == times;
      end := w.orders[id];
    } else {
      var r := rounds[0];
      assert |r.visits| == |r.picked| by { RoundLengths(w, r); }
      assert r.picked[..|r.picked|] == r.picked && r.visits[..|r.picked|] == r.visits;
      SweepRemembers(w, r.now, r.limit, r.picked, r.visits, id, k, times, |r.picked|);
      var first := FailuresIn(w, r.picked, r.visits, id);
      end := RoundsRemember(AfterRound(w, r), rounds[1..], id, k, times + first);
      assert times + Failures(w, rounds, id) == (times + first) + Failures(AfterRound(w, r), rounds[1..], id);
    }
  }

  lemma RoundLengths(w: World, r: Round)
    requires RoundPossible(w, r)
    ensures |r.visits| == |r.picked|
  {
  }

  /** Left to the sweep alone, an order that has failed k times fails at most until its count is 8, and
      each failure comes at least its backoff after the one before: from none to eight takes at least
      182 minutes. */
  lemma SweepScheduleHolds(w: World, rounds: seq<Round>, id: string)
    requires RoundsPossible(w, rounds) && id in w.orders
    ensures var k, times := w.orders[id].attempts, Failures(w, rounds, id);
            && Spaced(k, times)
            && (times != [] ==> k + |times| <= MAX_LABEL_ATTEMPTS)
            && (|times| == 8 ==> times[7] - times[0] >= 182 * MINUTE)
  {
    hide Failures, Spaced;
    var k, times := w.orders[id].attempts, Failures(w, rounds, id);
    assert [] + times == times;
    NoFailuresYet(w.orders[id]);
    var end := RoundsRemember(w, rounds, id, k, []);
    if |times| == 8 {
      EightAttempts(times);
    }
  }

  lemma NoFailuresYet(o: Order)
    ensures Remembers(o, o.attempts, [])
  {
  }

  lemma EightAttempts(times: seq<int>)
    requires |times| == 8 && Spaced(0, times)
    ensures times[7] - times[0] >= 182 * MINUTE
  {
    BackoffTable();
    hide Backoff;
    assert times[1] - times[0] >= Backoff(1) && times[2] - times[1] >= Backoff(2) && times[3] - times[2] >= Backoff(3);
    assert times[4] - times[3] >= Backoff(4) && times[5] - times[4] >= Backoff(5);
    assert times[6] - times[5] >= Backoff(6) && times[7] - times[6] >= Backoff(7);
  }

  /** A sweep does anything at all for the i-th row it picked, to the row or in the carrier's cart, only if
      that row, as it is then, was never attempted or was attempted at least min(2^k, 60) minutes before, k
      being its failures; and it only picks paid rows without a tracking code and with fewer than eight. */
  lemma SweepWaitsForBackoff(w: World, now: int, limit: int, picked: seq<string>, visits: seq<Visit>, i: nat)
    requires SweepPossible(w, now, limit, picked, visits) && i < |picked|
    ensures var before := SweepStep(w, picked[..i], visits[..i]);
            var after := SweepStep(w, picked[..i + 1], visits[..i + 1]);
            && picked[i] in before.orders && picked[i] in after.orders
            && var o := before.orders[picked[i]];
            && o == w.orders[picked[i]] && Wants(o) && o.attempts < MAX_LABEL_ATTEMPTS
            && (after != before && o.attemptedAt.Some?
                ==> visits[i].started >= o.attemptedAt.value + Backoff(o.attempts))
  {
    RowsWaitUntouched(w, picked[..i], visits[..i], picked[i]);
    SweepNext(w, picked, visits, i);
    hide Job, SweepStep;
  }

  /** A payment delivered again to an order awaiting shipment, while labels are not configured, leaves a
      row that is due at once but hidden by the coarse cutoff. */
  lemma RedeliveryHidesDueRow(w: World, id: string, piID: string, env: JobEnv, t: int)
    requires id in w.orders && !env.configured
    requires var o := w.orders[id];
             o.status == AwaitingShipment && o.trackingCode == "" && o.attempts == 0 && o.attemptedAt == Some(t)
    ensures var w' := WebhookStep(w, Some(id), piID, PaymentSucceeded, true, env);
            && id in w'.orders && w'.orders[id].status == Paid && w'.orders[id].trackingCode == ""
            && Due(w'.orders[id], t + MINUTE) && !Selected(w'.orders[id], t + MINUTE)
  {
    BackoffTable();
    hide Stock.DecrementedAll;
  }
}
