/** Label generation for one order (backend/label_job.go): the staged pipeline, its failure
    bookkeeping and its retry backoff. Upstream answers are an input; instants are nanoseconds. */
module LabelJobs {
  import opened Wrappers
  import opened Packages
  import opened Orders

  const MINUTE := 60_000_000_000
  const MAX_LABEL_ATTEMPTS := 8

  // ----- Backoff -----

  function Pow2(n: nat): (p: nat)
    ensures 1 <= p
  {
    if n == 0 then 1 else 2 * Pow2(n - 1)
  }

  /** The delay after k failures: min(2^k, 60) minutes, none before the first. */
  function Backoff(attempts: int): (d: int)
    ensures 0 <= d <= 60 * MINUTE
  {
    if attempts <= 0 then 0
    else (if Pow2(attempts) < 60 then Pow2(attempts) else 60) * MINUTE
  }

  lemma {:induction false} Pow2Monotone(a: nat, b: nat)
    requires a <= b
    ensures Pow2(a) <= Pow2(b)
  {
    if a < b {
      Pow2Monotone(a, b - 1);
    }
  }

  method LabelBackoff(attempts: int) returns (d: int)
    ensures d == Backoff(attempts)
  {
    if attempts <= 0 {
      return 0;
    }
    d := 2 * MINUTE;
    var max := 60 * MINUTE;
    var i := 1;
    while i < attempts && d < max
      invariant 1 <= i <= attempts && d == Pow2(i) * MINUTE
    {
      d := d * 2;
      i := i + 1;
    }
    Pow2Monotone(i, attempts);
    if d > max {
      d := max;
    }
  }

  lemma BackoffMonotone(a: int, b: int)
    requires a <= b
    ensures Backoff(a) <= Backoff(b)
  {
    if 0 < a {
      Pow2Monotone(a, b);
    }
  }

  // The schedule of the eight attempts, and what it adds up to.
  lemma BackoffTable()
    ensures Backoff(1) == 2 * MINUTE && Backoff(2) == 4 * MINUTE && Backoff(3) == 8 * MINUTE
    ensures Backoff(4) == 16 * MINUTE && Backoff(5) == 32 * MINUTE
    ensures Backoff(6) == 60 * MINUTE && Backoff(7) == 60 * MINUTE
  {
    assert Pow2(1) == 2 && Pow2(2) == 4 && Pow2(3) == 8;
    assert Pow2(4) == 16 && Pow2(5) == 32 && Pow2(6) == 64 && Pow2(7) == 128;
  }

  // The row's own delay has elapsed.
  predicate Due(o: Order, now: int) {
    o.attemptedAt.None? || now - o.attemptedAt.value >= Backoff(o.attempts)
  }

  // The row is among those the sweep's query selects (its limit aside).
  predicate Selected(o: Order, now: int) {
    PendingLabel(o, now - Backoff(1), MAX_LABEL_ATTEMPTS)
  }

  /** The query's coarse cutoff hides a paid, unlabelled row whose own delay has elapsed exactly when
      the row has been touched less than two minutes ago without ever having failed. */
  lemma CutoffHidesExactly(o: Order, now: int)
    requires o.status == Paid && o.trackingCode == "" && o.attempts < MAX_LABEL_ATTEMPTS
    ensures Due(o, now) && !Selected(o, now)
       <==> o.attempts == 0 && o.attemptedAt.Some? && 0 <= now - o.attemptedAt.value < 2 * MINUTE
  {
    BackoffTable();
    if 1 <= o.attempts {
      BackoffMonotone(1, o.attempts);
    }
  }

  // ----- The pipeline -----

  /** What one run of the job meets: its configuration, what each upstream call answers (an empty cart
      id is a failed AddToCart), and which of the closing writes go through. `at` is when they happen. */
  datatype JobEnv = JobEnv(
    configured: bool, autopay: bool, loaded: bool, addressed: bool, sender: bool, cartID: string,
    bought: bool, generated: bool, printed: bool,
    trackingCode: string, trackingURL: string, labelURL: string,
    saved: bool, flipped: bool, recorded: bool, at: int)

  /** What one run does to the order's row, how often it put it in the carrier's cart, how many writes
      it lost after that, and the stage it failed at. */
  datatype JobOutcome = JobOutcome(row: Order, cartAdds: nat, lostWrites: nat, failed: Option<Stage>)

  function Fail(o: Order, stage: Stage, env: JobEnv, cartAdds: nat): JobOutcome {
    if env.recorded then JobOutcome(WithFailure(o, stage, env.at), cartAdds, 0, Some(stage))
    else JobOutcome(o, cartAdds, cartAdds, Some(stage))
  }

  // A configured job has something to do: the order is paid and has no tracking code yet.
  predicate Wants(o: Order) {
    o.trackingCode == "" && o.status == Paid
  }

  // The first stage that stops the pipeline before the order is in the carrier's cart.
  function BlockedBefore(o: Order, env: JobEnv): Option<Stage> {
    if Packed(Refs(o.items)).Err? then Some(BuildingPackages)
    else if !env.addressed then Some(AddressLookup)
    else if !env.sender then Some(SenderAddress)
    else if env.cartID == "" then Some(AddToCart)
    else None
  }

  // The first stage that stops it afterwards.
  function BlockedAfter(env: JobEnv): Option<Stage> {
    if !env.autopay then (if env.saved then None else Some(MarkAwaiting))
    else if !env.bought then Some(BuyLabel)
    else if !env.generated then Some(GenerateLabel)
    else if !env.printed then Some(PrintLabel)
    else if !env.saved then Some(SaveTracking)
    else None
  }

  // The job puts the order in the carrier's cart.
  predicate AddsToCart(o: Order, env: JobEnv) {
    && env.configured && env.loaded && o.status == Paid && o.trackingCode == ""
    && Packed(Refs(o.items)).Ok? && env.addressed && env.sender && env.cartID != ""
  }

  // After that it loses the write that would tell the row: a failure's record, or the last status flip.
  predicate LosesAfterAdd(o: Order, env: JobEnv) {
    && AddsToCart(o, env)
    && if !env.autopay then !env.saved && !env.recorded
       else if env.bought && env.generated && env.printed && env.saved then !env.flipped
       else !env.recorded
  }

  function Job(o: Order, env: JobEnv): JobOutcome {
    if !env.configured then JobOutcome(o, 0, 0, None)
    else if !env.loaded then Fail(o, LoadOrder, env, 0)
    else if !Wants(o) then JobOutcome(o, 0, 0, None)
    else if BlockedBefore(o, env).Some? then Fail(o, BlockedBefore(o, env).value, env, 0)
    else if BlockedAfter(env).Some? then Fail(o, BlockedAfter(env).value, env, 1)
    else if !env.autopay then JobOutcome(Awaiting(o, env.cartID, env.at), 1, 0, None)
    else
      var tracked := WithTracking(o, env.trackingCode, env.trackingURL, env.labelURL, env.cartID, env.at);
      if env.flipped then JobOutcome(tracked.(status := Shipped), 1, 0, None) else JobOutcome(tracked, 1, 1, None)
  }

  // The row of a failed stage: one more attempt with its stage and time, unless that write is lost too.
  predicate FailedRow(o: Order, o': Order, stage: Stage, env: JobEnv) {
    o' == if env.recorded then o.(attempts := o.attempts + 1, lastError := Some(stage), attemptedAt := Some(env.at))
          else o
  }

  /** What a job does before the order is in the carrier's cart, by what it meets. */
  lemma JobBeforeCart(o: Order, env: JobEnv)
    ensures var j := Job(o, env); var wants := o.status == Paid && o.trackingCode == "";
            && (j.failed.Some? ==> FailedRow(o, j.row, j.failed.value, env))
            && (!env.configured ==> j.row == o && j.failed.None?)
            && (env.configured && !env.loaded ==> j.failed == Some(LoadOrder))
            && (env.configured && env.loaded && !wants ==> j.row == o && j.failed.None?)
            && (env.configured && env.loaded && wants ==>
                  var packs := Packed(Refs(o.items)).Ok?;
                  && (!packs ==> j.failed == Some(BuildingPackages))
                  && (packs && !env.addressed ==> j.failed == Some(AddressLookup))
                  && (packs && env.addressed && !env.sender ==> j.failed == Some(SenderAddress))
                  && (packs && env.addressed && env.sender && env.cartID == "" ==> j.failed == Some(AddToCart)))
            && (j.cartAdds == 1 <==> AddsToCart(o, env)) && j.cartAdds <= 1
  {
    hide Packed, Refs;
  }

  /** What it does afterwards. Without autopay the order waits for shipment if that write goes through.
      With autopay the first of buying, generating, printing and saving that fails is recorded and ends the
      job; only if all go well is the shipment stored, and the order shipped unless that write is lost. */
  lemma JobAfterCart(o: Order, env: JobEnv)
    requires AddsToCart(o, env)
    ensures var j := Job(o, env);
            && (!env.autopay && !env.saved ==> j.failed == Some(MarkAwaiting))
            && (!env.autopay && env.saved ==>
                  && j.failed.None?
                  && j.row == o.(status := AwaitingShipment, superfreteID := env.cartID, lastError := None,
                                 attemptedAt := Some(env.at)))
            && (env.autopay && !env.bought ==> j.failed == Some(BuyLabel))
            && (env.autopay && env.bought && !env.generated ==> j.failed == Some(GenerateLabel))
            && (env.autopay && env.bought && env.generated && !env.printed ==> j.failed == Some(PrintLabel))
            && (env.autopay && env.bought && env.generated && env.printed && !env.saved
                ==> j.failed == Some(SaveTracking))
            && (env.autopay && env.bought && env.generated && env.printed && env.saved ==>
                  && j.failed.None?
                  && j.row == o.(trackingCode := env.trackingCode, trackingURL := env.trackingURL,
                                 labelURL := env.labelURL, superfreteID := env.cartID, lastError := None,
                                 attemptedAt := Some(env.at), status := if env.flipped then Shipped else o.status))
  {
    hide Packed, Refs;
  }

  /** A job ships an order only if the label was bought, generated, printed and saved, and leaves it
      awaiting shipment only if that was saved. */
  lemma JobShipsExactly(o: Order, env: JobEnv)
    ensures var j := Job(o, env);
            && (j.row.status == Shipped != o.status
                <==> && AddsToCart(o, env) && env.autopay
                     && env.bought && env.generated && env.printed && env.saved && env.flipped)
            && (j.row.status == AwaitingShipment != o.status <==> AddsToCart(o, env) && !env.autopay && env.saved)
            && (j.row.trackingCode != o.trackingCode
                <==> && AddsToCart(o, env) && env.autopay
                     && env.bought && env.generated && env.printed && env.saved && env.trackingCode != "")
            && (j.row.status != o.status ==> o.status == Paid && j.failed.None?)
  {
    hide Packed, Refs;
  }

  function JobTable(t: Table, id: string, env: JobEnv): Table {
    if id in t then t[id := Job(t[id], env).row] else t
  }

  datatype JobError = NotConfigured | EmptyId | OrderNotFound | FailedAt(stage: Stage)

  /** wrapAndRecord: the failure is stamped onto the row unless that write is lost too. */
  method WrapAndRecord(orders: OrderStore, id: string, stage: Stage, env: JobEnv) returns (e: JobError)
    modifies orders
    ensures e == FailedAt(stage)
    ensures orders.rows == if id in old(orders.rows) && env.recorded
                           then old(orders.rows)[id := WithFailure(old(orders.rows)[id], stage, env.at)]
                           else old(orders.rows)
  {
    if env.recorded {
      orders.RecordTrackingFailure(id, stage, env.at);
    }
    return FailedAt(stage);
  }

  method RunLabelJob(orders: OrderStore, id: string, env: JobEnv) returns (r: Result<(), JobError>)
    modifies orders
    ensures id != "" ==> orders.rows == JobTable(old(orders.rows), id, env)
    ensures r == if !env.configured then Err(NotConfigured)
                 else if id == "" then Err(EmptyId)
                 else if !env.loaded then Err(FailedAt(LoadOrder))
                 else if id !in old(orders.rows) then Err(OrderNotFound)
                 else var f := Job(old(orders.rows)[id], env).failed; if f.Some? then Err(FailedAt(f.value)) else Ok(())
    ensures id == "" ==> orders.rows == old(orders.rows)
  {
    if !env.configured {
      return Err(NotConfigured);
    }
    if id == "" {
      return Err(EmptyId);
    }
    if !env.loaded {
      var e := WrapAndRecord(orders, id, LoadOrder, env);
      return Err(e);
    }
    if id !in orders.rows {
      return Err(OrderNotFound);
    }
    var o := orders.rows[id];
    if o.trackingCode != "" {
      return Ok(());
    }
    if o.status != Paid {
      return Ok(());
    }
    var pkgs := BuildPackages(Refs(o.items));
    if pkgs.Err? {
      var e := WrapAndRecord(orders, id, BuildingPackages, env);
      return Err(e);
    }
    if !env.addressed {
      var e := WrapAndRecord(orders, id, AddressLookup, env);
      return Err(e);
    }
    if !env.sender {
      var e := WrapAndRecord(orders, id, SenderAddress, env);
      return Err(e);
    }
    if env.cartID == "" {
      var e := WrapAndRecord(orders, id, AddToCart, env);
      return Err(e);
    }
    r := FinishLabel(orders, id, env);
  }

  // The part after the order has been added to the carrier's cart.
  method FinishLabel(orders: OrderStore, id: string, env: JobEnv) returns (r: Result<(), JobError>)
    requires id in orders.rows && env.configured && env.loaded && Wants(orders.rows[id])
    requires BlockedBefore(orders.rows[id], env).None?
    modifies orders
    ensures orders.rows == JobTable(old(orders.rows), id, env)
    ensures r == var f := Job(old(orders.rows)[id], env).failed; if f.Some? then Err(FailedAt(f.value)) else Ok(())
  {
    hide Packed;
    if !env.autopay {
      if !env.saved {
        var e := WrapAndRecord(orders, id, MarkAwaiting, env);
        return Err(e);
      }
      orders.MarkAwaitingShipment(id, env.cartID, env.at);
      return Ok(());
    }
    if !env.bought {
      var e := WrapAndRecord(orders, id, BuyLabel, env);
      return Err(e);
    }
    if !env.generated {
      var e := WrapAndRecord(orders, id, GenerateLabel, env);
      return Err(e);
    }
    if !env.printed {
      var e := WrapAndRecord(orders, id, PrintLabel, env);
      return Err(e);
    }
    if !env.saved {
      var e := WrapAndRecord(orders, id, SaveTracking, env);
      return Err(e);
    }
    orders.SetTracking(id, env.trackingCode, env.trackingURL, env.labelURL, env.cartID, env.at);
    if env.flipped {
      orders.SetStatus(id, Shipped);
    }
    return Ok(());
  }
}
