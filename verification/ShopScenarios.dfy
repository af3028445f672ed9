/** Short runs from the shop's opening that reach what the promises of ShopRuns, ShopStock and LabelSweeps
    have to make room for. Each holds for every checkout the shop accepts. */
module ShopScenarios {
  import opened Wrappers
  import opened Stock
  import opened Orders
  import opened LabelJobs
  import opened Shop
  import opened ShopInvariants
  import opened ShopStock
  import LabelSweeps
  import Packages
  import C = Checkout

  ghost predicate Accepted(catalog: Products, req: C.Request, id: string, now: int) {
    C.ValidCatalog(catalog) && C.ValidRequest(req) && id != "" && C.Placed(catalog, req, id, now).Ok?
  }

  // There are such checkouts.
  lemma SomeCheckoutIsAccepted(id: string, now: int) returns (catalog: Products, req: C.Request)
    requires id != ""
    ensures Accepted(catalog, req, id, now)
  {
    var tee := Product("p-tee-bw-black", "Tee", 8990, 7990, [], 5, map[]);
    catalog := map[tee.id := tee];
    var line := C.CartItem(tee.id, 1, "", "");
    req := C.Request([line], Card, None, C.NoCoupon);
    assert [line][..0] == [];
    assert C.Priced(catalog, Card, []) == Ok(([], 0));
    assert C.LineRefusal(catalog, line).None?;
    assert C.Priced(catalog, Card, [line]).Ok?;
  }

  // The row a checkout leaves.
  function NewRow(catalog: Products, req: C.Request, id: string, now: int): (o: Order)
    requires C.Placed(catalog, req, id, now).Ok?
  {
    var placed := C.Placed(catalog, req, id, now).value;
    placed.(items := Numbered(placed.items))
  }

  function Deliver(id: string, piID: string, env: JobEnv): Step {
    DoWebhook(Some(id), piID, PaymentSucceeded, true, env)
  }

  lemma RunCons(fold: (string, string) -> bool, w: World, s: Step, rest: seq<Step>)
    requires Possible(w, s) && PossibleRun(fold, Apply(fold, w, s), rest)
    ensures PossibleRun(fold, w, [s] + rest) && Run(fold, w, [s] + rest) == Run(fold, Apply(fold, w, s), rest)
  {
    hide Apply, Possible;
    assert ([s] + rest)[1..] == rest;
  }

  // A delivery, and what follows it.
  lemma DeliveryRuns(fold: (string, string) -> bool, w: World, id: string, piID: string, env: JobEnv, rest: seq<Step>)
    requires id in w.orders && id != ""
    requires PossibleRun(fold, WebhookStep(w, Some(id), piID, PaymentSucceeded, true, env), rest)
    ensures PossibleRun(fold, w, [Deliver(id, piID, env)] + rest)
    ensures Run(fold, w, [Deliver(id, piID, env)] + rest)
         == Run(fold, WebhookStep(w, Some(id), piID, PaymentSucceeded, true, env), rest)
  {
    hide Run, PossibleRun, WebhookStep;
    assert Resolves(w.orders, id, piID, Some(id));
    RunCons(fold, w, Deliver(id, piID, env), rest);
  }

  lemma AfterCheckout(fold: (string, string) -> bool, catalog: Products, req: C.Request, id: string, now: int)
    requires Accepted(catalog, req, id, now)
    ensures var w := Apply(fold, Opening(catalog), DoCheckout(req, id, now));
            && w == WithOrder(Opening(catalog), id, NewRow(catalog, req, id, now), Audit(0, 0, 0, C.Quote(req).0, []))
            && id in w.orders
    ensures var o := NewRow(catalog, req, id, now);
            && o.id == id && o.status == PendingPayment && o.attempts == 0 && o.attemptedAt == None
            && o.trackingCode == "" && o.items != [] && Packages.Packed(Refs(o.items)).Ok?
  {
    hide C.Priced, C.Charge, Packages.Packed, ItemsWorth, ExactWorth;
    C.PlacedOrderBalances(catalog, req, id, now);
    NumberedWorth(C.Placed(catalog, req, id, now).value.items);
  }

  lemma OneDelivery(fold: (string, string) -> bool, catalog: Products, req: C.Request, id: string, now: int,
                    piID: string, env: JobEnv)
    requires Accepted(catalog, req, id, now)
    ensures var steps := [DoCheckout(req, id, now), Deliver(id, piID, env)];
            var w := Apply(fold, Opening(catalog), steps[0]);
            && PossibleRun(fold, Opening(catalog), steps)
            && Run(fold, Opening(catalog), steps) == WebhookStep(w, Some(id), piID, PaymentSucceeded, true, env)
  {
    hide Apply, WebhookStep, Accepted;
    AcceptedFacts(catalog, req, id, now);
    AfterCheckout(fold, catalog, req, id, now);
    var checkout, deliver := DoCheckout(req, id, now), Deliver(id, piID, env);
    DeliveryRuns(fold, Apply(fold, Opening(catalog), checkout), id, piID, env, []);
    assert [deliver] + [] == [deliver] && [checkout] + [deliver] == [checkout, deliver];
    RunCons(fold, Opening(catalog), checkout, [deliver]);
  }

  lemma AcceptedFacts(catalog: Products, req: C.Request, id: string, now: int)
    requires Accepted(catalog, req, id, now)
    ensures C.ValidCatalog(catalog) && C.ValidRequest(req) && id != "" && C.Placed(catalog, req, id, now).Ok?
  {
  }

  /** A checkout and one payment are enough to put an order in the carrier's cart more often than it was
      paid for or retried: that happens exactly when the payment's label job loses a write after its cart
      add, be it the record of a failure or an autopay job's last status flip. */
  lemma LostWriteUncovers(fold: (string, string) -> bool, catalog: Products, req: C.Request, id: string, now: int,
                          piID: string, env: JobEnv)
    requires Accepted(catalog, req, id, now)
    ensures var steps := [DoCheckout(req, id, now), Deliver(id, piID, env)];
            && PossibleRun(fold, Opening(catalog), steps)
            && var w := Run(fold, Opening(catalog), steps);
            && id in w.orders
            && var o, a := w.orders[id], AuditOf(w, id);
            (a.cartAdds + One(o.status == Paid) > a.paidEvents + o.attempts
             <==> && env.configured && env.loaded && env.addressed && env.sender && env.cartID != ""
                  && if !env.autopay then !env.saved && !env.recorded
                     else if env.bought && env.generated && env.printed && env.saved then !env.flipped
                     else !env.recorded)
  {
    hide Run, PossibleRun, Apply, Job, DecrementedAll, Packages.Packed, Accepted, NewRow, C.Placed;
    OneDelivery(fold, catalog, req, id, now, piID, env);
    AcceptedFacts(catalog, req, id, now);
    AfterCheckout(fold, catalog, req, id, now);
    var row := Linked(NewRow(catalog, req, id, now), piID).(status := Paid);
    JobUncoversExactly(row, env);
  }

  lemma TwoDeliveries(fold: (string, string) -> bool, catalog: Products, req: C.Request, id: string, now: int,
                      piID: string, first: JobEnv, second: JobEnv)
    requires Accepted(catalog, req, id, now)
    ensures var steps := [DoCheckout(req, id, now), Deliver(id, piID, first), Deliver(id, piID, second)];
            && PossibleRun(fold, Opening(catalog), steps)
            && var w0 := Apply(fold, Opening(catalog), steps[0]);
            && var w1 := WebhookStep(w0, Some(id), piID, PaymentSucceeded, true, first);
            && id in w0.orders && id in w1.orders && w1.orders[id].items == w0.orders[id].items
            && Run(fold, Opening(catalog), steps) == WebhookStep(w1, Some(id), piID, PaymentSucceeded, true, second)
  {
    hide Apply, WebhookStep, Accepted, Asking;
    AcceptedFacts(catalog, req, id, now);
    AfterCheckout(fold, catalog, req, id, now);
    var checkout, d1, d2 := DoCheckout(req, id, now), Deliver(id, piID, first), Deliver(id, piID, second);
    var w0 := Apply(fold, Opening(catalog), checkout);
    var w1 := WebhookStep(w0, Some(id), piID, PaymentSucceeded, true, first);
    DeliveryIsPayment(w0, id, piID, first);
    WebhookKeepsKeys(w0, Some(id), piID, PaymentSucceeded, true, first);
    DeliveryRuns(fold, w1, id, piID, second, []);
    assert [d2] + [] == [d2] && [d1] + [d2] == [d1, d2] && [checkout] + [d1, d2] == [checkout, d1, d2];
    DeliveryRuns(fold, w0, id, piID, first, [d2]);
    RunCons(fold, Opening(catalog), checkout, [d1, d2]);
  }

  /** The decrement is not once per order: a payment that is delivered twice takes every line of the order
      twice, and there is at least one. */
  lemma RedeliveryTakesTwice(fold: (string, string) -> bool, catalog: Products, req: C.Request, id: string, now: int,
                             piID: string, first: JobEnv, second: JobEnv)
    requires Accepted(catalog, req, id, now)
    ensures var steps := [DoCheckout(req, id, now), Deliver(id, piID, first), Deliver(id, piID, second)];
            && PossibleRun(fold, Opening(catalog), steps)
            && var w := Run(fold, Opening(catalog), steps);
            && id in w.orders
            && var lines := StockLines(w.orders[id].items);
            && lines != [] && OrderLog(w.stockLog, id) == lines + lines
            && w.products == DecrementedAll(DecrementedAll(catalog, lines), lines)
  {
    hide Run, PossibleRun, Apply, WebhookStep, CheckoutStep, Accepted, NewRow, C.Placed, DecrementedAll, Asks;
    TwoDeliveries(fold, catalog, req, id, now, piID, first, second);
    AcceptedFacts(catalog, req, id, now);
    AfterCheckout(fold, catalog, req, id, now);
    var w0 := Apply(fold, Opening(catalog), DoCheckout(req, id, now));
    var w1 := WebhookStep(w0, Some(id), piID, PaymentSucceeded, true, first);
    DeliveryIsPayment(w0, id, piID, first);
    DeliveryIsPayment(w1, id, piID, second);
    var lines := StockLines(w0.orders[id].items);
    LogGrows(w0.stockLog, id, lines, id);
    LogGrows(w1.stockLog, id, lines, id);
    assert [] + lines == lines;
  }

  lemma CartOnly(o: Order, env: JobEnv)
    requires AddsToCart(o, env) && !env.autopay && env.saved
    ensures Job(o, env).row == Awaiting(o, env.cartID, env.at)
  {
    hide Packages.Packed;
  }

  // A payment whose label job stops at the carrier's cart.
  lemma AfterCartOnly(w: World, id: string, piID: string, env: JobEnv)
    requires id in w.orders && !env.autopay && env.saved
    requires AddsToCart(Linked(w.orders[id], piID).(status := Paid), env)
    ensures var w' := WebhookStep(w, Some(id), piID, PaymentSucceeded, true, env);
            && id in w'.orders
            && w'.orders[id] == Awaiting(Linked(w.orders[id], piID).(status := Paid), env.cartID, env.at)
  {
    hide Job, DecrementedAll, Asks, Linked, Awaiting, AddsToCart;
    CartOnly(Linked(w.orders[id], piID).(status := Paid), env);
  }

  /** The case the sweep's query hides is reachable: an order is paid and its label job leaves it awaiting
      shipment; the payment is delivered again while labels are not configured; a minute after the job
      the row is due, having never failed, and is not selected. */
  lemma DueRowIsHidden(fold: (string, string) -> bool, catalog: Products, req: C.Request, id: string, now: int,
                       piID: string, first: JobEnv, second: JobEnv)
    requires Accepted(catalog, req, id, now)
    requires first.configured && first.loaded && first.addressed && first.sender && first.cartID != ""
    requires !first.autopay && first.saved && !second.configured
    ensures var steps := [DoCheckout(req, id, now), Deliver(id, piID, first), Deliver(id, piID, second)];
            && PossibleRun(fold, Opening(catalog), steps)
            && var w := Run(fold, Opening(catalog), steps);
            && id in w.orders && w.orders[id].status == Paid && w.orders[id].trackingCode == ""
            && Due(w.orders[id], first.at + MINUTE) && !Selected(w.orders[id], first.at + MINUTE)
  {
    hide Run, PossibleRun, Apply, Accepted, NewRow, C.Placed, WebhookStep, Packages.Packed, Selected, Due;
    TwoDeliveries(fold, catalog, req, id, now, piID, first, second);
    AcceptedFacts(catalog, req, id, now);
    AfterCheckout(fold, catalog, req, id, now);
    var w0 := Apply(fold, Opening(catalog), DoCheckout(req, id, now));
    var w1 := WebhookStep(w0, Some(id), piID, PaymentSucceeded, true, first);
    AfterCartOnly(w0, id, piID, first);
    LabelSweeps.RedeliveryHidesDueRow(w1, id, piID, second, first.at);
  }
}
