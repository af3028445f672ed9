/** The promises about whole runs of the shop, from its opening on. */
module ShopRuns {
  import opened Wrappers
  import opened Packages
  import opened Stock
  import opened Orders
  import opened LabelJobs
  import opened Shop
  import opened ShopInvariants
  import C = Checkout

  lemma {:induction false} RunKeeps(fold: (string, string) -> bool, w: World, steps: seq<Step>)
    requires WorldOk(w) && PossibleRun(fold, w, steps)
    ensures WorldOk(Run(fold, w, steps))
    decreases |steps|
  {
    hide WorldOk, Apply;
    if steps != [] {
      StepKeeps(fold, w, steps[0]);
      RunKeeps(fold, Apply(fold, w, steps[0]), steps[1..]);
    }
  }

  /** An order that is not deleted stays, keeps its sale terms, never loses a line or a tracking code,
      never forgets a failed attempt and never returns to pending payment. */
  lemma {:induction false} OrdersOnlyEvolve(fold: (string, string) -> bool, w: World, steps: seq<Step>, id: string)
    requires WorldOk(w) && PossibleRun(fold, w, steps)
    requires id in w.orders && DoDelete(id) !in steps
    ensures id in Run(fold, w, steps).orders
    ensures Evolves(w.orders[id], Run(fold, w, steps).orders[id])
    decreases |steps|
  {
    hide WorldOk, Apply, Evolves;
    if steps == [] {
      EvolvesSelf(w.orders[id]);
    } else {
      var w' := Apply(fold, w, steps[0]);
      assert steps[0] in steps;
      StepKeeps(fold, w, steps[0]);
      OrdersOnlyEvolve(fold, w', steps[1..], id);
      EvolvesOn(w.orders[id], w'.orders[id], Run(fold, w, steps).orders[id]);
    }
  }

  lemma OpeningOk(catalog: Products)
    requires C.ValidCatalog(catalog)
    ensures WorldOk(Opening(catalog))
  {
  }

  /** In every reachable state, whatever the autopay setting was at each job: the carrier's cart has
      been added to, and the paid status is waiting to, at most as often as payments were confirmed,
      failures recorded and closing writes lost. */
  lemma CartAddsAreCovered(fold: (string, string) -> bool, catalog: Products, steps: seq<Step>, id: string)
    requires C.ValidCatalog(catalog) && PossibleRun(fold, Opening(catalog), steps)
    requires id in Run(fold, Opening(catalog), steps).orders
    ensures var w := Run(fold, Opening(catalog), steps); var o, a := w.orders[id], AuditOf(w, id);
            a.cartAdds + One(o.status == Paid) <= a.paidEvents + o.attempts + a.lostWrites
  {
    OpeningOk(catalog);
    RunKeeps(fold, Opening(catalog), steps);
    WorldRow(Run(fold, Opening(catalog), steps), id);
  }


  // ----- The label jobs of a run -----

  // The step confirms a payment of the order.
  predicate Confirms(w: World, s: Step, id: string) {
    && id in w.orders
    && match s {
         case DoWebhook(resolved, _, event, flipped, _) => event == PaymentSucceeded && flipped && resolved == Some(id)
         case DoMarkPaid(k, _) => k == id && w.orders[id].method_ == Pix && w.orders[id].status == PendingPayment
         case _ => false
       }
  }

  // One label job: the row it finds and what it meets.
  datatype JobRun = JobRun(row: Order, env: JobEnv)

  function SweepJobs(w: World, picked: seq<string>, visits: seq<Visit>): seq<JobRun>
    requires |visits| == |picked|
  {
    if picked == [] then []
    else
      var n := |picked| - 1;
      var before := SweepStep(w, picked[..n], visits[..n]);
      SweepJobs(w, picked[..n], visits[..n])
      + (if picked[n] in before.orders && !Cooling(before.orders[picked[n]], visits[n].started)
         then [JobRun(before.orders[picked[n]], visits[n].env)] else [])
  }

  // The label jobs a step runs.
  ghost function JobsIn(w: World, s: Step): seq<JobRun>
    requires Possible(w, s)
  {
    match s
    case DoWebhook(resolved, piID, _, _, env) =>
      if resolved.Some? && Confirms(w, s, resolved.value)
      then [JobRun(Linked(w.orders[resolved.value], piID).(status := Paid), env)] else []
    case DoMarkPaid(id, env) =>
      if Confirms(w, s, id) then [JobRun(w.orders[id].(status := Paid), env)] else []
    case DoRetryLabel(id, env) => if id in w.orders then [JobRun(w.orders[id], env)] else []
    case DoSweep(_, _, picked, visits) => SweepJobs(w, picked, visits)
    case _ => []
  }

  ghost predicate EveryJob(fold: (string, string) -> bool, w: World, steps: seq<Step>, ok: JobRun -> bool)
    requires PossibleRun(fold, w, steps)
    decreases |steps|
  {
    steps == [] || ((forall j | j in JobsIn(w, steps[0]) :: ok(j))
                    && EveryJob(fold, Apply(fold, w, steps[0]), steps[1..], ok))
  }

  // ----- Cart adds -----

  predicate KeepsWrites(j: JobRun) {
    !LosesAfterAdd(j.row, j.env)
  }

  ghost predicate NothingLost(w: World) {
    forall id | id in w.audit :: w.audit[id].lostWrites == 0
  }

  lemma JobLosesNothing(w: World, id: string, env: JobEnv)
    requires NothingLost(w) && (id in w.orders ==> KeepsWrites(JobRun(w.orders[id], env)))
    ensures NothingLost(JobStep(w, id, env))
  {
    hide Job, LosesAfterAdd;
    if id in w.orders {
      JobFacts(w.orders[id], env);
    }
  }

  lemma {:induction false} SweepLosesNothing(w: World, picked: seq<string>, visits: seq<Visit>)
    requires |visits| == |picked| && NothingLost(w) && forall j | j in SweepJobs(w, picked, visits) :: KeepsWrites(j)
    ensures NothingLost(SweepStep(w, picked, visits))
  {
    hide NothingLost, JobStep, KeepsWrites, Cooling;
    if picked != [] {
      var n := |picked| - 1;
      SweepLosesNothing(w, picked[..n], visits[..n]);
      var before := SweepStep(w, picked[..n], visits[..n]);
      if picked[n] in before.orders && !Cooling(before.orders[picked[n]], visits[n].started) {
        assert JobRun(before.orders[picked[n]], visits[n].env) in SweepJobs(w, picked, visits);
        JobLosesNothing(before, picked[n], visits[n].env);
      }
    }
  }

  lemma PaidLosesNothing(w: World, id: string, env: JobEnv)
    requires NothingLost(w) && id in w.orders && KeepsWrites(JobRun(w.orders[id].(status := Paid), env))
    ensures NothingLost(PaidStep(w, id, env))
  {
    hide JobStep, KeepsWrites, DecrementedAll;
    var o, a := w.orders[id], AuditOf(w, id);
    var paid := WithOrder(w, id, o.(status := Paid), a.(paidEvents := a.paidEvents + 1));
    JobLosesNothing(DrainStock(paid, id, StockLines(o.items)), id, env);
  }

  lemma StepLosesNothing(fold: (string, string) -> bool, w: World, s: Step)
    requires NothingLost(w) && Possible(w, s) && forall j | j in JobsIn(w, s) :: KeepsWrites(j)
    ensures NothingLost(Apply(fold, w, s))
  {
    hide PaidStep, JobStep, SweepStep, AddItemStep, C.Placed, SweepPossible, KeepsWrites, SweepJobs;
    match s {
      case DoWebhook(resolved, piID, event, flipped, env) =>
        if resolved.Some? && Confirms(w, s, resolved.value) {
          var row := Linked(w.orders[resolved.value], piID);
          assert JobRun(row.(status := Paid), env) in JobsIn(w, s);
          PaidLosesNothing(w.(orders := w.orders[resolved.value := row]), resolved.value, env);
        }
      case DoMarkPaid(id, env) =>
        if Confirms(w, s, id) {
          assert JobRun(w.orders[id].(status := Paid), env) in JobsIn(w, s);
          PaidLosesNothing(w, id, env);
        }
      case DoAddItem(id, add) => AddItemAudit(w, fold, id, add);
      case DoRetryLabel(id, env) =>
        assert id in w.orders ==> JobRun(w.orders[id], env) in JobsIn(w, s);
        JobLosesNothing(w, id, env);
      case DoSweep(_, _, picked, visits) =>
        SweepLengths(w, s);
        SweepLosesNothing(w, picked, visits);
      case _ =>
    }
  }

  lemma AddItemAudit(w: World, fold: (string, string) -> bool, id: string, req: AddRequest)
    ensures var w' := AddItemStep(w, fold, id, req).0;
            w'.audit == w.audit || w'.audit == w.audit[id := NoteAdded(AuditOf(w, id))]
  {
    hide OfferedSize, AddedLine, WithItem, DecrementedAll;
  }

  lemma {:induction false} RunLosesNothing(fold: (string, string) -> bool, w: World, steps: seq<Step>)
    requires NothingLost(w) && PossibleRun(fold, w, steps) && EveryJob(fold, w, steps, KeepsWrites)
    ensures NothingLost(Run(fold, w, steps))
    decreases |steps|
  {
    hide NothingLost, Apply, KeepsWrites, JobsIn;
    if steps != [] {
      StepLosesNothing(fold, w, steps[0]);
      RunLosesNothing(fold, Apply(fold, w, steps[0]), steps[1..]);
    }
  }

  /** As long as no job loses a write after its cart add, cart adds plus a waiting paid status never
      exceed payments plus failed attempts: no order is put in the cart more often than it was paid for
      or retried. */
  lemma CartAddsArePaidFor(fold: (string, string) -> bool, catalog: Products, steps: seq<Step>, id: string)
    requires C.ValidCatalog(catalog) && PossibleRun(fold, Opening(catalog), steps)
    requires EveryJob(fold, Opening(catalog), steps, KeepsWrites)
    requires id in Run(fold, Opening(catalog), steps).orders
    ensures var w := Run(fold, Opening(catalog), steps); var o, a := w.orders[id], AuditOf(w, id);
            a.cartAdds + One(o.status == Paid) <= a.paidEvents + o.attempts
  {
    CartAddsAreCovered(fold, catalog, steps, id);
    RunLosesNothing(fold, Opening(catalog), steps);
  }

  // ----- Money and packaging -----

  /** In every reachable state the money of every order adds up: what is charged is items plus
      shipping, and with the discount it is the computed worth of the stored lines plus the shipping
      quoted at checkout, which is their true worth exactly when no line overflows 64 bits; the lines
      are numbered 1, 2, 3, ... */
  lemma LedgerBalances(fold: (string, string) -> bool, catalog: Products, steps: seq<Step>, id: string)
    requires C.ValidCatalog(catalog) && PossibleRun(fold, Opening(catalog), steps)
    requires id in Run(fold, Opening(catalog), steps).orders
    ensures var w := Run(fold, Opening(catalog), steps); var o := w.orders[id];
            && o.amountCents == o.totalCents + o.shippingCents
            && o.totalCents + o.shippingCents + o.discountCents == ItemsWorth(o.items) + AuditOf(w, id).quotedShipping
            && (ItemsWorth(o.items) == ExactWorth(o.items) <==> forall i | 0 <= i < |o.items| :: Fits(o.items[i]))
            && (forall i | 0 <= i < |o.items| :: o.items[i].lineNo == i + 1)
  {
    hide ItemsWorth, ExactWorth, Fits;
    OpeningOk(catalog);
    RunKeeps(fold, Opening(catalog), steps);
    var o := Run(fold, Opening(catalog), steps).orders[id];
    WorldRow(Run(fold, Opening(catalog), steps), id);
    WorthIsExact(o.items);
  }

  /** An order no operator has edited can always be packed; after an edit it can be packed exactly
      when it still has at most 50 lines of at most 20 units each. */
  lemma UneditedOrdersPack(fold: (string, string) -> bool, catalog: Products, steps: seq<Step>, id: string)
    requires C.ValidCatalog(catalog) && PossibleRun(fold, Opening(catalog), steps)
    requires id in Run(fold, Opening(catalog), steps).orders
    ensures var w := Run(fold, Opening(catalog), steps); var o := w.orders[id];
            && (AuditOf(w, id).added == [] ==> Packed(Refs(o.items)).Ok?)
            && (Packed(Refs(o.items)).Ok?
                <==> |o.items| <= 50 && forall i | 0 <= i < |o.items| :: o.items[i].quantity <= 20)
  {
    hide Packed;
    OpeningOk(catalog);
    RunKeeps(fold, Opening(catalog), steps);
    var w := Run(fold, Opening(catalog), steps);
    WorldRow(w, id);
    C.PackableExactly(w.orders[id].items);
  }

  // ----- Status rules -----

  // The job ships the order though the carrier has told it no code; only autopay jobs can.
  predicate ShipsUntold(o: Order, env: JobEnv) {
    && AddsToCart(o, env) && env.autopay
    && env.bought && env.generated && env.printed && env.saved && env.flipped && env.trackingCode == ""
  }

  predicate KnowsCode(j: JobRun) {
    !ShipsUntold(j.row, j.env)
  }

  ghost predicate AllTracked(w: World) {
    forall id | id in w.orders :: ShippedTracked(w.orders[id])
  }

  lemma JobTracks(w: World, id: string, env: JobEnv)
    requires AllTracked(w) && (id in w.orders ==> KnowsCode(JobRun(w.orders[id], env)))
    ensures AllTracked(JobStep(w, id, env))
  {
    hide Job;
    if id in w.orders {
      JobFacts(w.orders[id], env);
    }
  }

  lemma {:induction false} SweepTracks(w: World, picked: seq<string>, visits: seq<Visit>)
    requires |visits| == |picked| && AllTracked(w) && forall j | j in SweepJobs(w, picked, visits) :: KnowsCode(j)
    ensures AllTracked(SweepStep(w, picked, visits))
  {
    hide AllTracked, JobStep, KnowsCode, Cooling;
    if picked != [] {
      var n := |picked| - 1;
      SweepTracks(w, picked[..n], visits[..n]);
      var before := SweepStep(w, picked[..n], visits[..n]);
      if picked[n] in before.orders && !Cooling(before.orders[picked[n]], visits[n].started) {
        assert JobRun(before.orders[picked[n]], visits[n].env) in SweepJobs(w, picked, visits);
        JobTracks(before, picked[n], visits[n].env);
      }
    }
  }

  lemma PaidTracks(w: World, id: string, env: JobEnv)
    requires AllTracked(w) && id in w.orders && KnowsCode(JobRun(w.orders[id].(status := Paid), env))
    ensures AllTracked(PaidStep(w, id, env))
  {
    hide JobStep, KnowsCode, DecrementedAll;
    var o, a := w.orders[id], AuditOf(w, id);
    var paid := WithOrder(w, id, o.(status := Paid), a.(paidEvents := a.paidEvents + 1));
    JobTracks(DrainStock(paid, id, StockLines(o.items)), id, env);
  }

  lemma StepTracks(fold: (string, string) -> bool, w: World, s: Step)
    requires AllTracked(w) && Possible(w, s) && forall j | j in JobsIn(w, s) :: KnowsCode(j)
    ensures AllTracked(Apply(fold, w, s))
  {
    hide PaidStep, JobStep, SweepStep, AddItemStep, C.Placed, SweepPossible, KnowsCode, SweepJobs;
    match s {
      case DoCheckout(req, id, now) => PlacedPending(w.products, req, id, now);
      case DoWebhook(resolved, piID, event, flipped, env) =>
        if resolved.Some? && Confirms(w, s, resolved.value) {
          var row := Linked(w.orders[resolved.value], piID);
          assert JobRun(row.(status := Paid), env) in JobsIn(w, s);
          PaidTracks(w.(orders := w.orders[resolved.value := row]), resolved.value, env);
        }
      case DoMarkPaid(id, env) =>
        if Confirms(w, s, id) {
          assert JobRun(w.orders[id].(status := Paid), env) in JobsIn(w, s);
          PaidTracks(w, id, env);
        }
      case DoAddItem(id, add) => AddItemTracks(w, fold, id, add);
      case DoRetryLabel(id, env) =>
        assert id in w.orders ==> JobRun(w.orders[id], env) in JobsIn(w, s);
        JobTracks(w, id, env);
      case DoSweep(_, _, picked, visits) =>
        SweepLengths(w, s);
        SweepTracks(w, picked, visits);
      case _ =>
    }
  }

  lemma PlacedPending(products: Products, req: C.Request, id: string, now: int)
    ensures C.Placed(products, req, id, now).Ok? ==> C.Placed(products, req, id, now).value.status == PendingPayment
  {
    hide C.Priced, C.Charge;
  }

  lemma AddItemTracks(w: World, fold: (string, string) -> bool, id: string, req: AddRequest)
    requires AllTracked(w)
    ensures AllTracked(AddItemStep(w, fold, id, req).0)
  {
    hide OfferedSize, AddedLine, DecrementedAll;
  }

  lemma {:induction false} RunTracks(fold: (string, string) -> bool, w: World, steps: seq<Step>)
    requires AllTracked(w) && PossibleRun(fold, w, steps) && EveryJob(fold, w, steps, KnowsCode)
    ensures AllTracked(Run(fold, w, steps))
    decreases |steps|
  {
    hide AllTracked, Apply, KnowsCode, JobsIn;
    if steps != [] {
      StepTracks(fold, w, steps[0]);
      RunTracks(fold, Apply(fold, w, steps[0]), steps[1..]);
    }
  }

  /** As long as no autopay job ships without being told a code (always so with autopay off), every
      shipped order has a tracking code; and every order awaiting shipment has its carrier id. */
  lemma StatusesAreBacked(fold: (string, string) -> bool, catalog: Products, steps: seq<Step>, id: string)
    requires C.ValidCatalog(catalog) && PossibleRun(fold, Opening(catalog), steps)
    requires id in Run(fold, Opening(catalog), steps).orders
    ensures var o := Run(fold, Opening(catalog), steps).orders[id];
            && (o.status == AwaitingShipment ==> o.superfreteID != "")
            && (EveryJob(fold, Opening(catalog), steps, KnowsCode) && o.status == Shipped ==> o.trackingCode != "")
  {
    OpeningOk(catalog);
    RunKeeps(fold, Opening(catalog), steps);
    WorldRow(Run(fold, Opening(catalog), steps), id);
    if EveryJob(fold, Opening(catalog), steps, KnowsCode) {
      RunTracks(fold, Opening(catalog), steps);
    }
  }
}
