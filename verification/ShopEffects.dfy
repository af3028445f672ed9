/** What each step of the shop does, in full: which request is refused for what, which columns of which row
    change, and that nothing else does. */
module ShopEffects {
  import opened Wrappers
  import opened Int64
  import opened Sequences
  import opened Stock
  import opened Orders
  import opened LabelJobs
  import opened Shop
  import opened ShopInvariants
  import opened ShopRuns
  import LabelSweeps
  import Packages
  import C = Checkout

  // ----- Checkout and payment -----

  /** An accepted order is stored under a new id with its lines numbered from 1, and its counters start at
      zero; a refused one, or one whose id is missing or taken, leaves everything as it was. */
  lemma CheckoutEffect(w: World, req: C.Request, id: string, now: int)
    ensures var (w', r) := CheckoutStep(w, req, id, now); var placed := C.Placed(w.products, req, id, now);
            && (placed.Err? ==> w' == w && r == Err(Refused(placed.error)))
            && (placed.Ok? && (id == "" || id in w.orders) ==> w' == w && r == Err(NotSaved))
            && (placed.Ok? && id != "" && id !in w.orders ==>
                  && r == Ok(()) && w'.products == w.products && w'.stockLog == w.stockLog
                  && w'.orders.Keys == w.orders.Keys + {id}
                  && (forall k | k in w.orders :: w'.orders[k] == w.orders[k])
                  && w'.audit == w.audit[id := Audit(0, 0, 0, C.Quote(req).0, [])]
                  && var o := w'.orders[id];
                  && o == placed.value.(items := o.items) && |o.items| == |placed.value.items|
                  && forall i | 0 <= i < |o.items| :: o.items[i] == placed.value.items[i].(lineNo := i + 1))
  {
    hide C.Placed;
  }

  /** A payment intent is linked to an order that exists and is not paid yet, if the provider creates it and
      that write goes through. */
  lemma IntentEffect(w: World, id: string, intent: Option<string>, saved: bool)
    ensures var (w', r) := IntentStep(w, id, intent, saved);
            && (r == Err(OrderMissing) <==> id !in w.orders)
            && (r == Err(AlreadyPaid) <==> id in w.orders && w.orders[id].status == Paid)
            && (r == Err(ProviderFailed) <==> id in w.orders && w.orders[id].status != Paid && intent.None?)
            && (r == Ok(()) <==> id in w.orders && w.orders[id].status != Paid && intent.Some?)
            && w' == if r.Ok? && saved
                     then w.(orders := w.orders[id := w.orders[id].(paymentIntentID := intent.value)]) else w
  {
  }

  /** A confirmed payment makes the order paid, takes its lines from the inventory, and then runs its label
      job on the paid row; no other order changes. */
  lemma PaidEffect(w: World, id: string, env: JobEnv)
    requires id in w.orders
    ensures var w' := PaidStep(w, id, env);
            var o, a := w.orders[id], AuditOf(w, id);
            var paid := o.(status := Paid);
            && w'.orders == w.orders[id := Job(paid, env).row]
            && w'.products == DecrementedAll(w.products, StockLines(o.items))
            && w'.stockLog == w.stockLog + Asks(id, StockLines(o.items))
            && w'.audit == w.audit[id := a.(paidEvents := a.paidEvents + 1,
                                            cartAdds := a.cartAdds + One(AddsToCart(paid, env)),
                                            lostWrites := a.lostWrites + One(LosesAfterAdd(paid, env)))]
  {
    hide Job, DecrementedAll, StockLines, Asks, AddsToCart, LosesAfterAdd;
    JobFacts(w.orders[id].(status := Paid), env);
  }

  /** What a payment event does to the order it resolves to. An event of another kind, or about no order, does
      nothing. Otherwise a missing intent is linked; if the status can be written, a failed or canceled
      payment leaves that row failed and otherwise as it was, and a successful one settles the order. */
  lemma WebhookEffect(w: World, resolved: Option<string>, piID: string, event: PaymentEvent, flipped: bool, env: JobEnv)
    ensures var w' := WebhookStep(w, resolved, piID, event, flipped, env);
            && (event == OtherEvent || resolved.None? || resolved.value !in w.orders ==> w' == w)
            && (event != OtherEvent && resolved.Some? && resolved.value in w.orders ==>
                  var id := resolved.value;
                  var o := w.orders[id];
                  var linked := o.(paymentIntentID := if o.paymentIntentID == "" then piID else o.paymentIntentID);
                  && (!flipped ==> w' == w.(orders := w.orders[id := linked]))
                  && (flipped && event == PaymentFailedOrCanceled
                      ==> w' == w.(orders := w.orders[id := linked.(status := Failed)]))
                  && (flipped && event == PaymentSucceeded
                      ==> w' == PaidStep(w.(orders := w.orders[id := linked]), id, env)))
  {
    hide PaidStep;
  }

  /** Which order a payment event is about: the one its metadata names if there is one, else one with its
      payment intent if it has one and there is such an order, else none. */
  lemma ResolvesExactly(t: Table, metadataID: string, piID: string, resolved: Option<string>)
    ensures Resolves(t, metadataID, piID, resolved)
       <==> if metadataID != "" && metadataID in t then resolved == Some(metadataID)
            else if resolved.Some?
                 then piID != "" && resolved.value in t && t[resolved.value].paymentIntentID == piID
            else piID == "" || forall id | id in t :: t[id].paymentIntentID != piID
  {
  }

  /** The operator can settle only pending Pix orders. */
  lemma MarkPaidEffect(w: World, id: string, env: JobEnv)
    ensures var (w', r) := MarkPaidStep(w, id, env);
            && (r == Err(OrderMissing) <==> id !in w.orders)
            && (r == Err(NotPix) <==> id in w.orders && w.orders[id].method_ == Card)
            && (r == Err(NotPending)
                <==> id in w.orders && w.orders[id].method_ == Pix && w.orders[id].status != PendingPayment)
            && (r == Ok(())
                <==> id in w.orders && w.orders[id].method_ == Pix && w.orders[id].status == PendingPayment)
            && w' == if r.Ok? then PaidStep(w, id, env) else w
  {
    hide PaidStep;
  }

  // ----- Operator actions -----

  lemma {:induction false} FirstMatch(fold: (string, string) -> bool, sizes: seq<string>, size: string)
    ensures MatchSize(fold, sizes, size).None? <==> forall k | 0 <= k < |sizes| :: !fold(sizes[k], size)
    ensures forall k | 0 <= k < |sizes| && fold(sizes[k], size) && (forall j | 0 <= j < k :: !fold(sizes[j], size)) ::
              MatchSize(fold, sizes, size) == Some(sizes[k])
  {
    if sizes != [] && !fold(sizes[0], size) {
      FirstMatch(fold, sizes[1..], size);
      forall k | 0 <= k < |sizes| && fold(sizes[k], size) && (forall j | 0 <= j < k :: !fold(sizes[j], size))
        ensures MatchSize(fold, sizes, size) == Some(sizes[k])
      {
        assert sizes[1..][k - 1] == sizes[k];
      }
      if forall k | 0 <= k < |sizes| :: !fold(sizes[k], size) {
        assert forall k | 0 <= k < |sizes[1..]| :: !fold(sizes[1..][k], size);
      }
    }
  }

  /** What stops an item from being added, in this order: no product, no mode, no order, an order past
      editing, an unknown product, a size the product does not come in. */
  lemma AddItemRefused(w: World, fold: (string, string) -> bool, id: string, req: AddRequest)
    ensures var (w', r) := AddItemStep(w, fold, id, req);
            var asked := req.productID != "" && (req.mode == Gift || req.mode == Extra);
            var editable := id in w.orders && w.orders[id].status in {PendingPayment, Paid, AwaitingShipment};
            && (r.Err? ==> w' == w)
            && (r == Err(ProductIdRequired) <==> req.productID == "")
            && (r == Err(BadMode) <==> req.productID != "" && req.mode == OtherMode)
            && (r == Err(OrderMissing) <==> asked && id !in w.orders)
            && (r == Err(NotEditable) <==> asked && id in w.orders && !editable)
            && (r == Err(ProductMissing) <==> asked && editable && req.productID !in w.products)
            && (r == Err(SizeUnavailable)
                <==> && asked && editable && req.productID in w.products && req.size != ""
                     && var sizes := w.products[req.productID].sizes;
                     sizes != [] && forall k | 0 <= k < |sizes| :: !fold(sizes[k], req.size))
            && (r == Err(ProductIdRequired) || r == Err(BadMode) || r == Err(OrderMissing) || r == Err(NotEditable)
                || r == Err(ProductMissing) || r == Err(SizeUnavailable) || r == Ok(()))
  {
    hide MatchSize, WithItem, DrainStock, WithOrder, AddedLine;
    if req.productID in w.products {
      FirstMatch(fold, w.products[req.productID].sizes, req.size);
    }
  }

  /** An item that is added is one line more, of the product as the catalog names and spells it: free as a
      gift, otherwise at the Pix price for a Pix order that has one and at the full price for any other; the
      totals grow by what it costs; and its units leave the inventory. */
  lemma AddItemEffect(w: World, fold: (string, string) -> bool, id: string, req: AddRequest)
    requires AddItemStep(w, fold, id, req).1.Ok?
    ensures id in w.orders && req.productID in w.products
    ensures var w' := AddItemStep(w, fold, id, req).0;
            var o, p := w.orders[id], w.products[req.productID];
            && w'.orders.Keys == w.orders.Keys && (forall k | k in w.orders && k != id :: w'.orders[k] == w.orders[k])
            && var o' := w'.orders[id];
            && |o'.items| == |o.items| + 1 && o'.items[..|o.items|] == o.items
            && var line := o'.items[|o.items|];
            && line.productID == p.id && line.productName == p.name && line.color == ""
            && line.quantity == (if req.quantity <= 0 then 1 else req.quantity)
            && line.unitPriceCents == (if req.mode == Gift then 0
                                       else if o.method_ == Pix && 0 < p.pixPriceCents then p.pixPriceCents
                                       else p.priceCents)
            && (req.size == "" || p.sizes == [] ==> line.size == req.size)
            && (req.size != "" ==>
                  forall k | 0 <= k < |p.sizes| && fold(p.sizes[k], req.size)
                             && (forall j | 0 <= j < k :: !fold(p.sizes[j], req.size)) :: line.size == p.sizes[k])
            && (var cost := if req.mode == Gift then 0 else Wrap(line.unitPriceCents * line.quantity);
                o' == o.(items := o'.items, totalCents := o.totalCents + cost, amountCents := o.amountCents + cost))
            && w'.products == DecrementedAll(w.products, [StockLine(p.id, line.size, line.quantity)])
            && w'.stockLog == w.stockLog + [Ask(id, StockLine(p.id, line.size, line.quantity))]
  {
    hide MatchSize, DecrementedAll, MaxLine, Wrap;
    var p := w.products[req.productID];
    FirstMatch(fold, p.sizes, req.size);
    var line := AddItemStep(w, fold, id, req).0.orders[id].items[|w.orders[id].items|];
    var l := StockLine(p.id, line.size, line.quantity);
    assert Asks(id, [l]) == [Ask(id, l)];
  }

  // Shipping an order under a code: the code and link are stored and, if that write goes through, the status.
  predicate ShippedUnder(o: Order, o': Order, code: string, url: string, flipped: bool, at: int) {
    o' == o.(trackingCode := code, trackingURL := url, lastError := None, attemptedAt := Some(at),
             status := if flipped then Shipped else o.status)
  }

  /** Refreshing ships an order that is with the carrier and has no code yet, once the carrier has issued one
      and it can be saved; nothing else changes anything. */
  lemma RefreshEffect(w: World, id: string, configured: bool, info: Option<Tracking>, saved: bool, flipped: bool,
                      at: int)
    ensures var (w', r) := RefreshStep(w, id, configured, info, saved, flipped, at);
            var known := configured && id in w.orders;
            var open := known && w.orders[id].superfreteID != "" && w.orders[id].trackingCode == "";
            && (r == Err(ShippingUnavailable) <==> !configured)
            && (r == Err(OrderMissing) <==> configured && id !in w.orders)
            && (r == Err(NoSuperfreteId) <==> known && w.orders[id].superfreteID == "")
            && (r == Err(UpstreamDown) <==> open && info.None?)
            && (r == Err(NotPersisted) <==> open && info.Some? && info.value.code != "" && !saved)
            && (r == Ok(true) <==> open && info.Some? && info.value.code != "" && saved)
            && (r == Ok(false)
                <==> known && w.orders[id].superfreteID != ""
                     && (w.orders[id].trackingCode != "" || (info.Some? && info.value.code == "")))
            && (r != Ok(true) ==> w' == w)
            && (r == Ok(true) ==>
                  && id in w'.orders && w' == w.(orders := w.orders[id := w'.orders[id]])
                  && ShippedUnder(w.orders[id], w'.orders[id], info.value.code, info.value.url, flipped, at))
  {
  }

  lemma MarkShippedEffect(w: World, id: string, t: Tracking, saved: bool, flipped: bool, at: int)
    ensures var (w', r) := MarkShippedStep(w, id, t, saved, flipped, at);
            && (r == Err(CodeRequired) <==> t.code == "")
            && (r == Err(OrderMissing) <==> t.code != "" && id !in w.orders)
            && (r == Err(NotPersisted) <==> t.code != "" && id in w.orders && !saved)
            && (r == Ok(()) <==> t.code != "" && id in w.orders && saved)
            && (r.Err? ==> w' == w)
            && (r.Ok? ==>
                  && id in w'.orders && w' == w.(orders := w.orders[id := w'.orders[id]])
                  && ShippedUnder(w.orders[id], w'.orders[id], t.code, t.url, flipped, at))
  {
  }

  lemma DeleteEffect(w: World, id: string)
    ensures var (w', r) := DeleteStep(w, id);
            && (r == Ok(()) <==> id in w.orders) && (r.Err? ==> r == Err(OrderMissing))
            && id !in w'.orders && (forall k | k != id :: k in w'.orders <==> k in w.orders)
            && (forall k | k in w'.orders :: w'.orders[k] == w.orders[k])
            && w'.products == w.products && w'.stockLog == w.stockLog
  {
  }

  // ----- Label jobs -----

  lemma JobEffect(w: World, id: string, env: JobEnv)
    ensures var w' := JobStep(w, id, env);
            && w'.products == w.products && w'.stockLog == w.stockLog
            && (id !in w.orders ==> w' == w)
            && (id in w.orders ==>
                  var o, a := w.orders[id], AuditOf(w, id);
                  && w'.orders == w.orders[id := Job(o, env).row]
                  && w'.audit == w.audit[id := a.(cartAdds := a.cartAdds + One(AddsToCart(o, env)),
                                                  lostWrites := a.lostWrites + One(LosesAfterAdd(o, env)))])
  {
    hide Job, AddsToCart, LosesAfterAdd;
    if id in w.orders {
      JobFacts(w.orders[id], env);
    }
  }

  lemma VisitEffect(w: World, id: string, v: Visit)
    requires id in w.orders
    ensures var w' := VisitStep(w, id, v); var o := w.orders[id];
            && w'.products == w.products && w'.stockLog == w.stockLog
            && w'.orders
               == w.orders[id := if o.attemptedAt.Some? && v.started < o.attemptedAt.value + Backoff(o.attempts) then o
                                 else Job(o, v.env).row]
  {
    hide JobStep, Job, Backoff;
    JobEffect(w, id, v.env);
  }

  /** A sweep runs the job of exactly those rows it picked whose own delay has passed, on the row the query
      saw; a picked row still cooling down stays as it was, and so does one it did not pick. */
  lemma {:induction false} SweepEffect(w: World, picked: seq<string>, visits: seq<Visit>, i: nat)
    requires |visits| == |picked| && Distinct(picked) && i < |picked| && picked[i] in w.orders
    ensures picked[i] in SweepStep(w, picked, visits).orders
    ensures var o, v := w.orders[picked[i]], visits[i];
            SweepStep(w, picked, visits).orders[picked[i]]
            == if o.attemptedAt.Some? && v.started < o.attemptedAt.value + Backoff(o.attempts) then o
               else Job(o, v.env).row
    ensures forall id | id in w.orders && id !in picked ::
              id in SweepStep(w, picked, visits).orders && SweepStep(w, picked, visits).orders[id] == w.orders[id]
  {
    hide VisitStep, Job, Backoff;
    var n := |picked| - 1;
    var init, before := picked[..n], SweepStep(w, picked[..n], visits[..n]);
    if i == n {
      LabelSweeps.RowsWaitUntouched(w, init, visits[..n], picked[n]);
      VisitEffect(before, picked[n], visits[n]);
    } else {
      SweepEffect(w, init, visits[..n], i);
      LabelSweeps.VisitElsewhere(before, picked[n], visits[n], picked[i]);
    }
    forall id | id in w.orders && id !in picked
      ensures id in SweepStep(w, picked, visits).orders && SweepStep(w, picked, visits).orders[id] == w.orders[id]
    {
      LabelSweeps.RowsWaitUntouched(w, picked, visits, id);
    }
  }

  lemma SucceedsMeans(o: Order, v: Visit)
    ensures Succeeds(o, v)
       <==> && !(o.attemptedAt.Some? && v.started < o.attemptedAt.value + Backoff(o.attempts))
            && v.env.configured && v.env.loaded && Job(o, v.env).failed.None?
  {
    hide Job, Backoff;
  }

  lemma {:induction false} SucceededExactly(t: Table, picked: seq<string>, visits: seq<Visit>)
    requires |visits| == |picked| && Distinct(picked) && forall id | id in picked :: id in t
    ensures forall id | id in SucceededOf(t, picked, visits) :: id in picked
    ensures forall i | 0 <= i < |picked| ::
              var o, v := t[picked[i]], visits[i];
              (picked[i] in SucceededOf(t, picked, visits)
               <==> && !(o.attemptedAt.Some? && v.started < o.attemptedAt.value + Backoff(o.attempts))
                    && v.env.configured && v.env.loaded && Job(o, v.env).failed.None?)
  {
    hide Job, Backoff, Succeeds;
    if picked != [] {
      var n := |picked| - 1;
      SucceedsMeans(t[picked[n]], visits[n]);
      SucceededExactly(t, picked[..n], visits[..n]);
      assert picked[n] !in picked[..n];
    }
  }

  // ----- When an order is failed -----

  // The event reports the order's payment failed or canceled, and that is written.
  predicate FailsOrder(s: Step, id: string) {
    s.DoWebhook? && s.event == PaymentFailedOrCanceled && s.flipped && s.resolved == Some(id)
  }

  // The step takes the order out of any status it is in: a payment is confirmed, or it is shipped.
  predicate RevivesOrder(w: World, s: Step, id: string) {
    && id in w.orders
    && match s {
         case DoWebhook(_, _, _, _, _) => Confirms(w, s, id)
         case DoMarkShipped(k, t, saved, flipped, _) => k == id && t.code != "" && saved && flipped
         case DoRefresh(k, configured, info, saved, flipped, _) =>
           && k == id && configured && w.orders[id].superfreteID != "" && w.orders[id].trackingCode == ""
           && info.Some? && info.value.code != "" && saved && flipped
         case _ => false
       }
  }

  ghost predicate IsFailed(w: World, id: string) {
    id in w.orders && w.orders[id].status == Failed
  }

  lemma JobKeepsFailed(o: Order, env: JobEnv)
    ensures Job(o, env).row.status == Failed <==> o.status == Failed
  {
    hide Packages.Packed;
  }

  lemma {:induction false} SweepKeepsFailed(w: World, picked: seq<string>, visits: seq<Visit>, id: string)
    requires |visits| == |picked|
    ensures IsFailed(SweepStep(w, picked, visits), id) <==> IsFailed(w, id)
  {
    hide Job, Cooling;
    if picked != [] {
      var n := |picked| - 1;
      var before := SweepStep(w, picked[..n], visits[..n]);
      SweepKeepsFailed(w, picked[..n], visits[..n], id);
      if picked[n] in before.orders {
        JobKeepsFailed(before.orders[picked[n]], visits[n].env);
      }
    }
  }

  lemma PaidIsNotFailed(w: World, k: string, env: JobEnv, id: string)
    requires k in w.orders
    ensures IsFailed(PaidStep(w, k, env), id) <==> id != k && IsFailed(w, id)
  {
    hide Job, PaidStep, DecrementedAll, StockLines;
    PaidEffect(w, k, env);
    JobKeepsFailed(w.orders[k].(status := Paid), env);
  }

  lemma AddKeepsFailed(w: World, fold: (string, string) -> bool, k: string, add: AddRequest, id: string)
    ensures IsFailed(AddItemStep(w, fold, k, add).0, id) <==> IsFailed(w, id)
  {
    hide OfferedSize, AddedLine, DecrementedAll;
  }

  lemma WebhookFails(w: World, s: Step, id: string)
    requires s.DoWebhook?
    ensures IsFailed(WebhookStep(w, s.resolved, s.piID, s.event, s.flipped, s.env), id)
       <==> (FailsOrder(s, id) && id in w.orders) || (IsFailed(w, id) && !Confirms(w, s, id))
  {
    hide PaidStep;
    if s.resolved.Some? && Confirms(w, s, s.resolved.value) {
      var k := s.resolved.value;
      PaidIsNotFailed(w.(orders := w.orders[k := Linked(w.orders[k], s.piID)]), k, s.env, id);
    }
  }

  lemma DeskFails(fold: (string, string) -> bool, w: World, s: Step, id: string)
    requires s.DoIntent? || s.DoRefresh? || s.DoMarkShipped? || (s.DoDelete? && s.id != id)
    ensures IsFailed(Apply(fold, w, s), id) <==> IsFailed(w, id) && !RevivesOrder(w, s, id)
  {
  }

  /** A step leaves an order failed exactly if it fails it, or finds it failed and does not revive it. */
  lemma FailedStep(fold: (string, string) -> bool, w: World, s: Step, id: string)
    requires WorldOk(w) && Possible(w, s) && s != DoDelete(id)
    ensures IsFailed(Apply(fold, w, s), id) <==> FailsOrder(s, id) || (IsFailed(w, id) && !RevivesOrder(w, s, id))
  {
    hide WorldOk, PaidStep, JobStep, SweepStep, AddItemStep, C.Placed, SweepPossible, WebhookStep, RefreshStep,
         MarkShippedStep, IntentStep, DeleteStep;
    match s {
      case DoCheckout(req, k, now) => PlacedPending(w.products, req, k, now);
      case DoWebhook(_, _, _, _, _) => WebhookFails(w, s, id);
      case DoMarkPaid(k, env) =>
        if Confirms(w, s, k) {
          PaidIsNotFailed(w, k, env, id);
        }
      case DoAddItem(k, add) => AddKeepsFailed(w, fold, k, add, id);
      case DoRetryLabel(k, env) =>
        JobEffect(w, k, env);
        if k in w.orders {
          JobKeepsFailed(w.orders[k], env);
        }
      case DoSweep(_, _, picked, visits) =>
        SweepLengths(w, s);
        SweepKeepsFailed(w, picked, visits, id);
      case _ => DeskFails(fold, w, s, id);
    }
  }

  // The world before the j-th step of a run.
  ghost function At(fold: (string, string) -> bool, w: World, steps: seq<Step>, j: nat): World
    requires PossibleRun(fold, w, steps) && j <= |steps|
    decreases j
  {
    if j == 0 then w else At(fold, Apply(fold, w, steps[0]), steps[1..], j - 1)
  }

  // From the k-th step on nothing revives the order.
  ghost predicate Unrevived(fold: (string, string) -> bool, w: World, steps: seq<Step>, k: nat, id: string)
    requires PossibleRun(fold, w, steps)
  {
    forall j: nat | k <= j < |steps| :: !RevivesOrder(At(fold, w, steps, j), steps[j], id)
  }

  ghost predicate LastFailedAt(fold: (string, string) -> bool, w: World, steps: seq<Step>, k: nat, id: string)
    requires PossibleRun(fold, w, steps)
  {
    k < |steps| && FailsOrder(steps[k], id) && Unrevived(fold, w, steps, k + 1, id)
  }

  lemma UnrevivedShift(fold: (string, string) -> bool, w: World, steps: seq<Step>, k: nat, id: string)
    requires steps != [] && PossibleRun(fold, w, steps)
    ensures Unrevived(fold, w, steps, k + 1, id) <==> Unrevived(fold, Apply(fold, w, steps[0]), steps[1..], k, id)
    ensures Unrevived(fold, w, steps, 0, id)
       <==> !RevivesOrder(w, steps[0], id) && Unrevived(fold, w, steps, 1, id)
  {
    hide Apply, RevivesOrder;
    var w', rest := Apply(fold, w, steps[0]), steps[1..];
    assert forall j: nat | j < |rest| :: At(fold, w, steps, j + 1) == At(fold, w', rest, j) && steps[j + 1] == rest[j];
    if Unrevived(fold, w, steps, k + 1, id) {
      forall j: nat | k <= j < |rest| ensures !RevivesOrder(At(fold, w', rest, j), rest[j], id) {
        assert !RevivesOrder(At(fold, w, steps, j + 1), steps[j + 1], id);
      }
    }
    if Unrevived(fold, w', rest, k, id) {
      forall j: nat | k + 1 <= j < |steps| ensures !RevivesOrder(At(fold, w, steps, j), steps[j], id) {
        assert !RevivesOrder(At(fold, w', rest, j - 1), rest[j - 1], id);
      }
    }
    assert At(fold, w, steps, 0) == w;
  }

  lemma {:induction false} FailedFrom(fold: (string, string) -> bool, w: World, steps: seq<Step>, id: string)
    requires WorldOk(w) && PossibleRun(fold, w, steps) && DoDelete(id) !in steps
    ensures IsFailed(Run(fold, w, steps), id)
       <==> (exists k: nat :: LastFailedAt(fold, w, steps, k, id))
            || (IsFailed(w, id) && Unrevived(fold, w, steps, 0, id))
    decreases |steps|
  {
    hide WorldOk, Apply, IsFailed, FailsOrder, RevivesOrder, Unrevived;
    if steps == [] {
      assert Unrevived(fold, w, steps, 0, id) by { NothingRevives(fold, w, id); }
    } else {
      var w', rest := Apply(fold, w, steps[0]), steps[1..];
      assert steps[0] in steps;
      StepKeeps(fold, w, steps[0]);
      FailedStep(fold, w, steps[0], id);
      FailedFrom(fold, w', rest, id);
      UnrevivedShift(fold, w, steps, 0, id);
      if k: nat :| LastFailedAt(fold, w', rest, k, id) {
        UnrevivedShift(fold, w, steps, k + 1, id);
        assert LastFailedAt(fold, w, steps, k + 1, id);
      }
      if k: nat :| LastFailedAt(fold, w, steps, k, id) {
        if k > 0 {
          UnrevivedShift(fold, w, steps, k, id);
          assert LastFailedAt(fold, w', rest, k - 1, id);
        }
      }
      if FailsOrder(steps[0], id) && Unrevived(fold, w', rest, 0, id) {
        assert LastFailedAt(fold, w, steps, 0, id);
      }
    }
  }

  lemma NothingRevives(fold: (string, string) -> bool, w: World, id: string)
    ensures Unrevived(fold, w, [], 0, id)
  {
  }

  /** Over any run that does not delete it, an order is failed exactly if some event reported its payment failed
      or canceled, could be written, and was followed by nothing that revives the order: no confirmed
      payment, and no shipping by an operator. */
  lemma FailedExactly(fold: (string, string) -> bool, catalog: Products, steps: seq<Step>, id: string)
    requires C.ValidCatalog(catalog) && PossibleRun(fold, Opening(catalog), steps) && DoDelete(id) !in steps
    ensures IsFailed(Run(fold, Opening(catalog), steps), id)
       <==> exists k: nat :: LastFailedAt(fold, Opening(catalog), steps, k, id)
  {
    OpeningOk(catalog);
    FailedFrom(fold, Opening(catalog), steps, id);
  }
}
