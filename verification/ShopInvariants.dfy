/** What every run of the shop keeps: the money ledger, the payment/label account, the status rules
    and the inventory. */
module ShopInvariants {
  import opened Wrappers
  import opened Packages
  import opened Stock
  import opened Orders
  import opened LabelJobs
  import opened Shop
  import C = Checkout

  // ----- One order -----

  function One(b: bool): nat {
    if b then 1 else 0
  }

  // Every cart add, and a paid status still waiting for its own, is covered by a payment, a recorded
  // failure or a lost write.
  predicate Covered(o: Order, a: Audit) {
    a.cartAdds + One(o.status == Paid) <= a.paidEvents + o.attempts + a.lostWrites
  }

  predicate Ledger(o: Order, a: Audit) {
    && o.amountCents == o.totalCents + o.shippingCents
    && o.totalCents + o.shippingCents + o.discountCents == ItemsWorth(o.items) + a.quotedShipping
  }

  predicate GoodItems(o: Order, a: Audit) {
    && LinesInOrder(o.items) && o.items != []
    && (forall i | 0 <= i < |o.items| :: C.GoodLine(o.items[i]))
    && (a.added == [] ==> Packed(Refs(o.items)).Ok?)
  }

  // An order awaiting shipment is in the carrier's cart under a known id.
  predicate ShipmentKnown(o: Order) {
    o.status == AwaitingShipment ==> o.superfreteID != ""
  }

  predicate RowOk(o: Order, a: Audit) {
    Covered(o, a) && Ledger(o, a) && GoodItems(o, a) && ShipmentKnown(o)
  }

  // How a row may change while it exists.
  predicate Evolves(o: Order, o': Order) {
    && o'.id == o.id && o'.method_ == o.method_ && o'.createdAt == o.createdAt
    && o'.shippingCents == o.shippingCents && o'.discountCents == o.discountCents
    && o.items <= o'.items && o.attempts <= o'.attempts
    && (o.status != PendingPayment ==> o'.status != PendingPayment)
    && (o.trackingCode != "" ==> o'.trackingCode != "")
  }

  predicate ShippedTracked(o: Order) {
    o.status == Shipped ==> o.trackingCode != ""
  }

  // What a label job leaves alone.
  predicate SameSale(o: Order, o': Order) {
    && o'.id == o.id && o'.items == o.items && o'.method_ == o.method_ && o'.createdAt == o.createdAt
    && o'.totalCents == o.totalCents && o'.shippingCents == o.shippingCents
    && o'.amountCents == o.amountCents && o'.discountCents == o.discountCents
    && o'.paymentIntentID == o.paymentIntentID
  }

  /** One label job: it never touches the sale; it adds to the carrier's cart exactly when nothing stops
      it before, and covers that add by leaving the paid status, recording a failure or losing a write;
      it never erases a tracking code; and it can ship an order without a code only as an autopay job
      whose carrier reported none. */
  lemma JobFacts(o: Order, env: JobEnv)
    ensures var j := Job(o, env);
            && SameSale(o, j.row) && o.attempts <= j.row.attempts
            && j.cartAdds + One(j.row.status == Paid) + o.attempts
               <= One(o.status == Paid) + j.row.attempts + j.lostWrites
            && j.cartAdds == One(AddsToCart(o, env)) && j.lostWrites == One(LosesAfterAdd(o, env))
            && (LosesAfterAdd(o, env)
                <==> && AddsToCart(o, env)
                     && if !env.autopay then !env.saved && !env.recorded
                        else if env.bought && env.generated && env.printed && env.saved then !env.flipped
                        else !env.recorded)
            && (o.trackingCode != "" ==> j.row.trackingCode == o.trackingCode)
            && (o.status != PendingPayment ==> j.row.status != PendingPayment)
            && (ShipmentKnown(o) ==> ShipmentKnown(j.row))
            && (ShippedTracked(o) && !ShippedTracked(j.row)
                <==> && ShippedTracked(o) && AddsToCart(o, env) && env.autopay
                     && env.bought && env.generated && env.printed && env.saved && env.flipped
                     && env.trackingCode == "")
  {
    hide Packed, Refs;
  }

  /** One job makes the order's cart adds outgrow its payments and failures exactly when it loses a write
      after its cart add: the record of a failure, or an autopay job's last status flip. */
  lemma JobUncoversExactly(o: Order, env: JobEnv)
    ensures var j := Job(o, env);
            j.cartAdds + One(j.row.status == Paid) - j.row.attempts > One(o.status == Paid) - o.attempts
            <==> LosesAfterAdd(o, env)
  {
    hide Packed, Refs;
  }

  lemma JobKeepsRow(o: Order, a: Audit, env: JobEnv)
    requires RowOk(o, a)
    ensures var j := Job(o, env);
            && RowOk(j.row, a.(cartAdds := a.cartAdds + j.cartAdds, lostWrites := a.lostWrites + j.lostWrites))
            && Evolves(o, j.row)
  {
    JobFacts(o, env);
    hide Job, ItemsWorth, Packed;
  }

  // ----- The whole shop -----

  ghost predicate WorldOk(w: World) {
    && w.audit.Keys == w.orders.Keys
    && (forall id | id in w.orders :: id != "" && w.orders[id].id == id && RowOk(w.orders[id], w.audit[id]))
    && C.ValidCatalog(w.products)
  }

  // Rows in both states have evolved.
  ghost predicate WorldEvolves(w: World, w': World) {
    forall id | id in w.orders && id in w'.orders :: Evolves(w.orders[id], w'.orders[id])
  }

  lemma Rewrite(w: World, id: string, o: Order, a: Audit)
    requires WorldOk(w) && id in w.orders && RowOk(o, a) && Evolves(w.orders[id], o)
    ensures WorldOk(WithOrder(w, id, o, a)) && WorldEvolves(w, WithOrder(w, id, o, a))
  {
    hide RowOk, C.ValidCatalog;
    forall k | k in w.orders ensures Evolves(w.orders[k], w.orders[k]) {
      EvolvesSelf(w.orders[k]);
    }
    hide Evolves;
    EvolvesId(w.orders[id], o);
  }

  lemma EvolvesSelf(o: Order)
    ensures Evolves(o, o)
  {
  }

  lemma EvolvesId(o: Order, o': Order)
    requires Evolves(o, o')
    ensures o'.id == o.id
  {
  }

  lemma EvolvesOn(o: Order, o': Order, o'': Order)
    requires Evolves(o, o') && Evolves(o', o'')
    ensures Evolves(o, o'')
  {
  }

  lemma RewriteRow(w: World, id: string, o: Order)
    requires WorldOk(w) && id in w.orders && RowOk(o, w.audit[id]) && Evolves(w.orders[id], o)
    ensures WorldOk(w.(orders := w.orders[id := o])) && WorldEvolves(w, w.(orders := w.orders[id := o]))
  {
    hide RowOk, Evolves, C.ValidCatalog;
    Rewrite(w, id, o, w.audit[id]);
    assert w.audit[id := w.audit[id]] == w.audit;
  }

  lemma JobKeeps(w: World, id: string, env: JobEnv)
    requires WorldOk(w)
    ensures WorldOk(JobStep(w, id, env)) && WorldEvolves(w, JobStep(w, id, env))
    ensures JobStep(w, id, env).orders.Keys == w.orders.Keys
  {
    hide RowOk, Evolves, Job, C.ValidCatalog;
    if id in w.orders {
      JobKeepsRow(w.orders[id], w.audit[id], env);
      var out, a := Job(w.orders[id], env), w.audit[id];
      Rewrite(w, id, out.row, a.(cartAdds := a.cartAdds + out.cartAdds, lostWrites := a.lostWrites + out.lostWrites));
    } else {
      forall k | k in w.orders ensures Evolves(w.orders[k], w.orders[k]) {
        EvolvesSelf(w.orders[k]);
      }
    }
  }

  lemma TakeKeepsValid(p: Product, size: string, qty: int)
    requires C.ValidProduct(p)
    ensures C.ValidProduct(Take(p, size, qty).0) && Take(p, size, qty).0.id == p.id
  {
  }

  lemma {:induction false} DrainKeepsCatalog(products: Products, lines: seq<StockLine>)
    requires C.ValidCatalog(products)
    ensures C.ValidCatalog(DecrementedAll(products, lines))
  {
    hide Take, C.ValidProduct;
    if lines != [] {
      var n := |lines| - 1;
      DrainKeepsCatalog(products, lines[..n]);
      var prev := DecrementedAll(products, lines[..n]);
      if lines[n].productID in prev {
        TakeKeepsValid(prev[lines[n].productID], lines[n].size, lines[n].quantity);
      }
    }
  }

  lemma DrainKeeps(w: World, id: string, lines: seq<StockLine>)
    requires WorldOk(w)
    ensures WorldOk(DrainStock(w, id, lines))
  {
    hide RowOk, C.ValidCatalog, DecrementedAll;
    DrainKeepsCatalog(w.products, lines);
  }

  lemma PaidKeeps(w: World, id: string, env: JobEnv)
    requires WorldOk(w) && id in w.orders
    ensures WorldOk(PaidStep(w, id, env)) && WorldEvolves(w, PaidStep(w, id, env))
    ensures PaidStep(w, id, env).orders.Keys == w.orders.Keys
  {
    hide WorldOk, WorldEvolves, RowOk, Evolves, PaidStep, JobStep, DrainStock, WithOrder;
    WorldRow(w, id);
    PaidShape(w, id, env);
    var o, a := w.orders[id], w.audit[id];
    PaidKeepsRow(o, a);
    var paid := WithOrder(w, id, o.(status := Paid), a.(paidEvents := a.paidEvents + 1));
    Rewrite(w, id, o.(status := Paid), a.(paidEvents := a.paidEvents + 1));
    var drained := DrainStock(paid, id, StockLines(o.items));
    DrainKeeps(paid, id, StockLines(o.items));
    JobKeeps(drained, id, env);
    EvolveChain(w, drained, PaidStep(w, id, env));
  }

  lemma WorldRow(w: World, id: string)
    requires WorldOk(w) && id in w.orders
    ensures id in w.audit && RowOk(w.orders[id], w.audit[id]) && w.orders[id].id == id != ""
  {
    hide RowOk, C.ValidCatalog;
  }

  lemma PaidShape(w: World, id: string, env: JobEnv)
    requires id in w.orders && id in w.audit
    ensures var o, a := w.orders[id], w.audit[id];
            var paid := WithOrder(w, id, o.(status := Paid), a.(paidEvents := a.paidEvents + 1));
            var drained := DrainStock(paid, id, StockLines(o.items));
            && PaidStep(w, id, env) == JobStep(drained, id, env)
            && drained.orders == paid.orders && paid.orders.Keys == w.orders.Keys
            && (WorldEvolves(w, paid) ==> WorldEvolves(w, drained))
  {
    hide Job, DecrementedAll, Evolves;
  }

  lemma EvolveChain(w: World, w': World, w'': World)
    requires WorldEvolves(w, w') && WorldEvolves(w', w'') && w''.orders.Keys <= w'.orders.Keys
    ensures WorldEvolves(w, w'')
  {
    hide Evolves;
    forall id | id in w.orders && id in w''.orders ensures Evolves(w.orders[id], w''.orders[id]) {
      EvolvesOn(w.orders[id], w'.orders[id], w''.orders[id]);
    }
  }

  lemma PaidKeepsRow(o: Order, a: Audit)
    requires RowOk(o, a)
    ensures RowOk(o.(status := Paid), a.(paidEvents := a.paidEvents + 1)) && Evolves(o, o.(status := Paid))
  {
    hide ItemsWorth, Packed;
  }

  // ----- Every step -----

  lemma Untouched(w: World)
    ensures WorldEvolves(w, w)
  {
    hide Evolves;
    forall id | id in w.orders ensures Evolves(w.orders[id], w.orders[id]) {
      EvolvesSelf(w.orders[id]);
    }
  }

  lemma CheckoutKeeps(w: World, req: C.Request, id: string, now: int)
    requires WorldOk(w) && C.ValidRequest(req)
    ensures WorldOk(CheckoutStep(w, req, id, now).0) && WorldEvolves(w, CheckoutStep(w, req, id, now).0)
  {
    hide WorldOk, WorldEvolves, RowOk, C.Placed;
    Untouched(w);
    if CheckoutStep(w, req, id, now).1.Ok? {
      CatalogOk(w);
      PlacedRowOk(w.products, req, id, now);
      var o := C.Placed(w.products, req, id, now).value;
      Arrive(w, id, o.(items := Numbered(o.items)), Audit(0, 0, 0, C.Quote(req).0, []));
    }
  }

  lemma CatalogOk(w: World)
    requires WorldOk(w)
    ensures C.ValidCatalog(w.products)
  {
    hide C.ValidCatalog, RowOk;
  }

  // A new row disturbs no other.
  lemma Arrive(w: World, id: string, o: Order, a: Audit)
    requires WorldOk(w) && id !in w.orders && id != "" && o.id == id && RowOk(o, a)
    ensures WorldOk(WithOrder(w, id, o, a)) && WorldEvolves(w, WithOrder(w, id, o, a))
  {
    hide RowOk, Evolves, C.ValidCatalog;
    Untouched(w);
  }

  lemma PlacedRowOk(products: Products, req: C.Request, id: string, now: int)
    requires C.ValidCatalog(products) && C.ValidRequest(req) && C.Placed(products, req, id, now).Ok?
    ensures var o := C.Placed(products, req, id, now).value;
            && o.id == id && RowOk(o.(items := Numbered(o.items)), Audit(0, 0, 0, C.Quote(req).0, []))
  {
    hide C.Priced, C.Charge, Packed, ItemsWorth;
    C.PlacedOrderBalances(products, req, id, now);
    NumberedWorth(C.Placed(products, req, id, now).value.items);
  }

  lemma WebhookKeeps(w: World, resolved: Option<string>, piID: string, event: PaymentEvent, flipped: bool, env: JobEnv)
    requires WorldOk(w)
    ensures var w' := WebhookStep(w, resolved, piID, event, flipped, env); WorldOk(w') && WorldEvolves(w, w')
  {
    hide WorldOk, WorldEvolves, RowOk, Evolves, PaidStep;
    Untouched(w);
    if event != OtherEvent && resolved.Some? && resolved.value in w.orders {
      var id := resolved.value;
      WorldRow(w, id);
      var o, a := w.orders[id], w.audit[id];
      var linked := Linked(o, piID);
      LinkedRow(o, a, linked);
      RewriteRow(w, id, linked);
      var w' := w.(orders := w.orders[id := linked]);
      if flipped && event == PaymentFailedOrCanceled {
        RewriteRow(w', id, linked.(status := Failed));
        EvolveChain(w, w', w'.(orders := w'.orders[id := linked.(status := Failed)]));
      } else if flipped {
        PaidKeeps(w', id, env);
        EvolveChain(w, w', PaidStep(w', id, env));
      }
    }
  }

  lemma LinkedRow(o: Order, a: Audit, linked: Order)
    requires RowOk(o, a) && linked == o.(paymentIntentID := linked.paymentIntentID)
    ensures RowOk(linked, a) && Evolves(o, linked)
    ensures RowOk(linked.(status := Failed), a) && Evolves(linked, linked.(status := Failed))
  {
    hide ItemsWorth, Packed;
  }

  lemma AddItemKeeps(w: World, fold: (string, string) -> bool, id: string, req: AddRequest)
    requires WorldOk(w)
    ensures var w' := AddItemStep(w, fold, id, req).0; WorldOk(w') && WorldEvolves(w, w')
  {
    Untouched(w);
    var (w', r) := AddItemStep(w, fold, id, req);
    if r.Ok? {
      var o, p := w.orders[id], w.products[req.productID];
      var size := OfferedSize(fold, p, req.size).value;
      var line := AddedLine(o, p, size, req);
      AddedRow(o, w.audit[id], p, size, req);
      hide RowOk, Evolves, C.ValidCatalog, WithItem, AddedLine, OfferedSize, DecrementedAll;
      var a := NoteAdded(w.audit[id]);
      Rewrite(w, id, WithItem(o, line, req.mode == Extra), a);
      DrainKeeps(WithOrder(w, id, WithItem(o, line, req.mode == Extra), a), id, [StockLine(p.id, size, line.quantity)]);
    }
  }

  lemma AddedRow(o: Order, a: Audit, p: Product, size: string, req: AddRequest)
    requires RowOk(o, a) && C.ValidProduct(p) && req.mode != OtherMode
    ensures var o' := WithItem(o, AddedLine(o, p, size, req), req.mode == Extra);
            RowOk(o', NoteAdded(a)) && Evolves(o, o')
  {
    hide ItemsWorth, Packed;
    AddedItem(o, AddedLine(o, p, size, req), req.mode == Extra);
    var o' := WithItem(o, AddedLine(o, p, size, req), req.mode == Extra);
    assert forall i | 0 <= i < |o.items| :: o'.items[i] == o.items[i];
  }

  lemma ShipKeeps(w: World, id: string, t: Tracking, flipped: bool, at: int)
    requires WorldOk(w) && id in w.orders && t.code != ""
    ensures var w' := w.(orders := w.orders[id := ShipRow(w.orders[id], t, flipped, at)]);
            WorldOk(w') && WorldEvolves(w, w')
  {
    ShippedRow(w.orders[id], w.audit[id], t, flipped, at);
    hide RowOk, Evolves, C.ValidCatalog, ShipRow;
    RewriteRow(w, id, ShipRow(w.orders[id], t, flipped, at));
  }

  lemma ShippedRow(o: Order, a: Audit, t: Tracking, flipped: bool, at: int)
    requires RowOk(o, a) && t.code != ""
    ensures RowOk(ShipRow(o, t, flipped, at), a) && Evolves(o, ShipRow(o, t, flipped, at))
  {
    hide ItemsWorth, Packed;
  }

  lemma {:induction false} SweepKeeps(w: World, picked: seq<string>, visits: seq<Visit>)
    requires WorldOk(w) && |visits| == |picked|
    ensures WorldOk(SweepStep(w, picked, visits)) && WorldEvolves(w, SweepStep(w, picked, visits))
    ensures SweepStep(w, picked, visits).orders.Keys == w.orders.Keys
  {
    hide WorldOk, WorldEvolves, JobStep, Cooling;
    Untouched(w);
    if picked != [] {
      var n := |picked| - 1;
      SweepKeeps(w, picked[..n], visits[..n]);
      var w' := SweepStep(w, picked[..n], visits[..n]);
      JobKeeps(w', picked[n], visits[n].env);
      Untouched(w');
      EvolveChain(w, w', SweepStep(w, picked, visits));
    }
  }

  lemma DeleteKeeps(w: World, id: string)
    requires WorldOk(w)
    ensures WorldOk(DeleteStep(w, id).0) && WorldEvolves(w, DeleteStep(w, id).0)
  {
    hide RowOk, Evolves, C.ValidCatalog;
    Untouched(w);
  }

  /** Every step keeps every order in order, and moves the surviving rows only in allowed ways. */
  lemma StepKeeps(fold: (string, string) -> bool, w: World, s: Step)
    requires WorldOk(w) && Possible(w, s)
    ensures WorldOk(Apply(fold, w, s)) && WorldEvolves(w, Apply(fold, w, s))
    ensures forall id | id in w.orders && s != DoDelete(id) :: id in Apply(fold, w, s).orders
  {
    hide WorldOk, WorldEvolves, CheckoutStep, IntentStep, WebhookStep, MarkPaidStep, AddItemStep, JobStep, SweepStep;
    hide RefreshStep, MarkShippedStep, SweepPossible;
    match s {
      case DoCheckout(req, id, now) => CheckoutKeeps(w, req, id, now); CheckoutKeepsKeys(w, req, id, now);
      case DoIntent(id, intent, saved) => IntentKeeps(w, id, intent, saved);
      case DoWebhook(resolved, piID, event, flipped, env) =>
        WebhookKeeps(w, resolved, piID, event, flipped, env);
        WebhookKeepsKeys(w, resolved, piID, event, flipped, env);
      case DoMarkPaid(id, env) => MarkPaidKeeps(w, id, env);
      case DoAddItem(id, add) => AddItemKeeps(w, fold, id, add); AddItemKeepsKeys(w, fold, id, add);
      case DoRetryLabel(id, env) => JobKeeps(w, id, env);
      case DoSweep(_, _, picked, visits) => SweepLengths(w, s); SweepKeeps(w, picked, visits);
      case DoRefresh(id, configured, info, saved, flipped, at) =>
        RefreshKeeps(w, id, configured, info, saved, flipped, at);
      case DoMarkShipped(id, tracking, saved, flipped, at) => MarkShippedKeeps(w, id, tracking, saved, flipped, at);
      case DoDelete(id) => DeleteKeeps(w, id);
    }
  }

  lemma IntentKeeps(w: World, id: string, intent: Option<string>, saved: bool)
    requires WorldOk(w)
    ensures var w' := IntentStep(w, id, intent, saved).0;
            WorldOk(w') && WorldEvolves(w, w') && w'.orders.Keys == w.orders.Keys
  {
    hide WorldOk, WorldEvolves, RowOk, Evolves;
    Untouched(w);
    if IntentStep(w, id, intent, saved).1.Ok? && saved {
      WorldRow(w, id);
      var linked := w.orders[id].(paymentIntentID := intent.value);
      LinkedRow(w.orders[id], w.audit[id], linked);
      RewriteRow(w, id, linked);
    }
  }

  lemma MarkPaidKeeps(w: World, id: string, env: JobEnv)
    requires WorldOk(w)
    ensures var w' := MarkPaidStep(w, id, env).0;
            WorldOk(w') && WorldEvolves(w, w') && w'.orders.Keys == w.orders.Keys
  {
    hide WorldOk, WorldEvolves, PaidStep;
    Untouched(w);
    if id in w.orders {
      PaidKeeps(w, id, env);
    }
  }

  lemma RefreshKeeps(w: World, id: string, configured: bool, info: Option<Tracking>, saved: bool, flipped: bool,
                     at: int)
    requires WorldOk(w)
    ensures var w' := RefreshStep(w, id, configured, info, saved, flipped, at).0;
            WorldOk(w') && WorldEvolves(w, w') && w'.orders.Keys == w.orders.Keys
  {
    hide WorldOk, WorldEvolves, ShipRow;
    Untouched(w);
    if RefreshStep(w, id, configured, info, saved, flipped, at).1 == Ok(true) {
      ShipKeeps(w, id, info.value, flipped, at);
    }
  }

  lemma MarkShippedKeeps(w: World, id: string, t: Tracking, saved: bool, flipped: bool, at: int)
    requires WorldOk(w)
    ensures var w' := MarkShippedStep(w, id, t, saved, flipped, at).0;
            WorldOk(w') && WorldEvolves(w, w') && w'.orders.Keys == w.orders.Keys
  {
    hide WorldOk, WorldEvolves, ShipRow;
    Untouched(w);
    if MarkShippedStep(w, id, t, saved, flipped, at).1.Ok? {
      ShipKeeps(w, id, t, flipped, at);
    }
  }

  lemma SweepLengths(w: World, s: Step)
    requires s.DoSweep? && Possible(w, s)
    ensures |s.visits| == |s.picked|
  {
  }

  lemma CheckoutKeepsKeys(w: World, req: C.Request, id: string, now: int)
    ensures w.orders.Keys <= CheckoutStep(w, req, id, now).0.orders.Keys
  {
    hide C.Placed;
  }

  lemma WebhookKeepsKeys(w: World, resolved: Option<string>, piID: string, event: PaymentEvent, flipped: bool,
                         env: JobEnv)
    ensures WebhookStep(w, resolved, piID, event, flipped, env).orders.Keys == w.orders.Keys
  {
    hide Job, DecrementedAll;
  }

  lemma AddItemKeepsKeys(w: World, fold: (string, string) -> bool, id: string, req: AddRequest)
    ensures AddItemStep(w, fold, id, req).0.orders.Keys == w.orders.Keys
  {
    hide OfferedSize, AddedLine, WithItem, DecrementedAll;
  }
}
