/** The request handlers over the two stores. Each method follows its handler's control flow and is
    proved to perform exactly the step of module Shop that carries its name. */
module Backend {
  import opened Wrappers
  import opened Stock
  import opened Orders
  import opened LabelJobs
  import opened Shop
  import C = Checkout

  class Backend {
    const orders: OrderStore
    const products: ProductsStore
    ghost var audit: map<string, Audit>
    ghost var stockLog: seq<Ask>

    constructor (catalog: Products)
      ensures World() == Opening(catalog) && fresh(orders) && fresh(products)
    {
      orders := new OrderStore();
      products := new ProductsStore(catalog);
      audit, stockLog := map[], [];
    }

    ghost function World(): Shop.World
      reads this, orders, products
    {
      Shop.World(orders.rows, products.rows, audit, stockLog)
    }

    // ----- Shared pieces -----

    /** syncLabelDispatcher.Enqueue, and the body of the retry endpoint: one label job, whose error the
        caller only logs or reports. */
    method Enqueue(id: string, env: JobEnv) returns (r: Result<(), JobError>)
      requires id != ""
      modifies this, orders
      ensures World() == JobStep(old(World()), id, env)
      ensures r.Ok? <==> && env.configured && env.loaded && id in old(orders.rows)
                         && Job(old(orders.rows)[id], env).failed.None?
    {
      hide Job;
      ghost var w := World();
      r := RunLabelJob(orders, id, env);
      if id in w.orders {
        ghost var out, a := Job(w.orders[id], env), AuditOf(w, id);
        audit := audit[id := a.(cartAdds := a.cartAdds + out.cartAdds, lostWrites := a.lostWrites + out.lostWrites)];
      }
    }

    // decrementOrderStock: the lines of the order as it is stored.
    method DecrementOrderStock(id: string)
      modifies this, products
      ensures World() == if id in orders.rows then DrainStock(old(World()), id, StockLines(orders.rows[id].items))
                         else old(World())
    {
      if id !in orders.rows {
        return;
      }
      var lines := StockLines(orders.rows[id].items);
      products.DecrementLines(lines);
      stockLog := stockLog + Asks(id, lines);
    }

    // What follows a confirmed payment.
    method Settle(id: string, env: JobEnv)
      requires id != "" && id in orders.rows
      modifies this, orders, products
      ensures World() == PaidStep(old(World()), id, env)
    {
      hide JobStep, DrainStock;
      orders.SetStatus(id, Paid);
      ghost var a := AuditOf(old(World()), id);
      audit := audit[id := a.(paidEvents := a.paidEvents + 1)];
      DecrementOrderStock(id);
      var done := Enqueue(id, env);
    }

    // ----- Checkout and payment -----

    method HandleCheckout(req: C.Request, id: string, now: int) returns (r: Result<(), Denial>)
      modifies this, orders
      ensures (World(), r) == CheckoutStep(old(World()), req, id, now)
    {
      hide C.Placed;
      var placed := C.PlaceOrder(products.rows, req, id, now);
      if placed.Err? {
        return Err(Refused(placed.error));
      }
      assert placed.value.id == id by { PlacedId(products.rows, req, id, now); }
      var created := orders.Create(placed.value);
      if created.Err? {
        return Err(NotSaved);
      }
      audit := audit[id := Audit(0, 0, 0, C.Quote(req).0, [])];
      return Ok(());
    }

    lemma PlacedId(catalog: Products, req: C.Request, id: string, now: int)
      requires C.Placed(catalog, req, id, now).Ok?
      ensures C.Placed(catalog, req, id, now).value.id == id
    {
    }

    method HandlePaymentsIntent(id: string, intent: Option<string>, saved: bool) returns (r: Result<(), Denial>)
      modifies orders
      ensures (World(), r) == IntentStep(old(World()), id, intent, saved)
    {
      if id !in orders.rows {
        return Err(OrderMissing);
      }
      if orders.rows[id].status == Paid {
        return Err(AlreadyPaid);
      }
      if intent.None? {
        return Err(ProviderFailed);
      }
      if saved {
        orders.SetPaymentIntent(id, intent.value);
      }
      return Ok(());
    }

    /** applyOrderStatus: the order the event is about, if its status could be set. */
    method ApplyOrderStatus(metadataID: string, piID: string, status: Status, flipped: bool)
      returns (found: Option<string>, done: bool)
      modifies orders
      ensures Resolves(old(orders.rows), metadataID, piID, found)
      ensures found.Some? ==> found.value in old(orders.rows)
      ensures done <==> found.Some? && flipped
      ensures orders.rows == if found.None? then old(orders.rows) else
                var linked := Linked(old(orders.rows)[found.value], piID);
                old(orders.rows)[found.value := if flipped then linked.(status := status) else linked]
    {
      found := None;
      if metadataID != "" && metadataID in orders.rows {
        found := Some(metadataID);
      }
      if found.None? {
        found := orders.ByPaymentIntent(piID);
      }
      if found.None? {
        return found, false;
      }
      var id := found.value;
      if orders.rows[id].paymentIntentID == "" {
        orders.SetPaymentIntent(id, piID);
      }
      if !flipped {
        return found, false;
      }
      orders.SetStatus(id, status);
      return found, true;
    }

    method HandlePaymentsWebhook(metadataID: string, piID: string, event: PaymentEvent, flipped: bool, env: JobEnv)
      returns (found: Option<string>)
      requires forall id | id in orders.rows :: id != ""
      modifies this, orders, products
      ensures event != OtherEvent ==> Resolves(old(orders.rows), metadataID, piID, found)
      ensures World() == WebhookStep(old(World()), found, piID, event, flipped, env)
    {
      hide JobStep, DrainStock;
      ghost var rows := orders.rows;
      match event {
        case PaymentSucceeded =>
          var done;
          found, done := ApplyOrderStatus(metadataID, piID, Paid, flipped);
          if found.Some? {
            ghost var linked := Linked(rows[found.value], piID);
            Overwrite(rows, found.value, linked, linked.(status := Paid));
          }
          if done {
            var id := found.value;
            ghost var a := AuditOf(old(World()), id);
            audit := audit[id := a.(paidEvents := a.paidEvents + 1)];
            DecrementOrderStock(id);
            var label_ := Enqueue(id, env);
          }
        case PaymentFailedOrCanceled =>
          var done;
          found, done := ApplyOrderStatus(metadataID, piID, Failed, flipped);
          if found.Some? {
            ghost var linked := Linked(rows[found.value], piID);
            Overwrite(rows, found.value, linked, linked.(status := Failed));
          }
        case OtherEvent =>
          found := None;
      }
    }

    lemma Overwrite(t: Table, id: string, a: Order, b: Order)
      ensures t[id := a][id := b] == t[id := b]
    {
    }

    method AdminMarkPaid(id: string, env: JobEnv) returns (r: Result<(), Denial>)
      requires forall k | k in orders.rows :: k != ""
      modifies this, orders, products
      ensures (World(), r) == MarkPaidStep(old(World()), id, env)
    {
      hide PaidStep;
      if id !in orders.rows {
        return Err(OrderMissing);
      }
      if orders.rows[id].method_ != Pix {
        return Err(NotPix);
      }
      if orders.rows[id].status != PendingPayment {
        return Err(NotPending);
      }
      Settle(id, env);
      return Ok(());
    }

    // ----- Operator actions -----

    method FindSize(fold: (string, string) -> bool, sizes: seq<string>, size: string) returns (r: Option<string>)
      ensures r == MatchSize(fold, sizes, size)
    {
      for i := 0 to |sizes|
        invariant MatchSize(fold, sizes, size) == MatchSize(fold, sizes[i..], size)
      {
        if fold(sizes[i], size) {
          return Some(sizes[i]);
        }
        assert sizes[i..][1..] == sizes[i + 1..];
      }
      return None;
    }

    method AdminAddOrderItem(fold: (string, string) -> bool, id: string, req: AddRequest)
      returns (r: Result<(), Denial>)
      modifies this, orders, products
      ensures (World(), r) == AddItemStep(old(World()), fold, id, req)
    {
      hide MatchSize, WithItem, DrainStock, WithOrder, AuditOf;
      if req.productID == "" {
        return Err(ProductIdRequired);
      }
      var qty := if req.quantity <= 0 then 1 else req.quantity;
      if req.mode != Gift && req.mode != Extra {
        return Err(BadMode);
      }
      if id !in orders.rows {
        return Err(OrderMissing);
      }
      var o := orders.rows[id];
      if o.status != PendingPayment && o.status != Paid && o.status != AwaitingShipment {
        return Err(NotEditable);
      }
      if req.productID !in products.rows {
        return Err(ProductMissing);
      }
      var prod := products.rows[req.productID];
      var size := req.size;
      if size != "" && |prod.sizes| > 0 {
        var offered := FindSize(fold, prod.sizes, size);
        if offered.None? {
          return Err(SizeUnavailable);
        }
        size := offered.value;
      }
      var unitPrice := 0;
      if req.mode == Extra {
        unitPrice := prod.priceCents;
        if o.method_ == Pix && prod.pixPriceCents > 0 {
          unitPrice := prod.pixPriceCents;
        }
      }
      PersistItem(id, Item(0, prod.id, prod.name, size, "", qty, unitPrice), req.mode == Extra);
      return Ok(());
    }

    // The row is written first, then the inventory.
    method PersistItem(id: string, item: Item, bumpTotals: bool)
      requires id in orders.rows && 0 < item.quantity
      modifies this, orders, products
      ensures World() == var w := old(World());
                DrainStock(WithOrder(w, id, WithItem(w.orders[id], item, bumpTotals), NoteAdded(AuditOf(w, id))), id,
                           [StockLine(item.productID, item.size, item.quantity)])
    {
      hide WithItem, Decremented;
      var added := orders.AddItem(id, item, bumpTotals);
      audit := audit[id := NoteAdded(AuditOf(old(World()), id))];
      var rem := products.DecrementStockBySize(item.productID, item.size, item.quantity);
      ghost var line := StockLine(item.productID, item.size, item.quantity);
      stockLog := stockLog + Asks(id, [line]);
      OneLine(old(products.rows), line);
    }

    lemma OneLine(rows: Products, line: StockLine)
      ensures DecrementedAll(rows, [line]) == Decremented(rows, line)
    {
      assert [line][..0] == [];
    }

    method AdminRefreshTracking(id: string, configured: bool, info: Option<Tracking>, saved: bool, flipped: bool,
                                at: int)
      returns (r: Result<bool, Denial>)
      modifies orders
      ensures (World(), r) == RefreshStep(old(World()), id, configured, info, saved, flipped, at)
    {
      if !configured {
        return Err(ShippingUnavailable);
      }
      if id !in orders.rows {
        return Err(OrderMissing);
      }
      var o := orders.rows[id];
      if o.superfreteID == "" {
        return Err(NoSuperfreteId);
      }
      if o.trackingCode != "" {
        return Ok(false);
      }
      if info.None? {
        return Err(UpstreamDown);
      }
      if info.value.code == "" {
        return Ok(false);
      }
      if !saved {
        return Err(NotPersisted);
      }
      orders.SetTracking(id, info.value.code, info.value.url, o.labelURL, o.superfreteID, at);
      if flipped {
        Overwrite(old(orders.rows), id, ShipRow(o, info.value, false, at), ShipRow(o, info.value, true, at));
        orders.SetStatus(id, Shipped);
      }
      return Ok(true);
    }

    method AdminMarkShipped(id: string, t: Tracking, saved: bool, flipped: bool, at: int)
      returns (r: Result<(), Denial>)
      modifies orders
      ensures (World(), r) == MarkShippedStep(old(World()), id, t, saved, flipped, at)
    {
      if t.code == "" {
        return Err(CodeRequired);
      }
      if id !in orders.rows {
        return Err(OrderMissing);
      }
      var o := orders.rows[id];
      if !saved {
        return Err(NotPersisted);
      }
      orders.SetTracking(id, t.code, t.url, o.labelURL, o.superfreteID, at);
      if flipped {
        Overwrite(old(orders.rows), id, ShipRow(o, t, false, at), ShipRow(o, t, true, at));
        orders.SetStatus(id, Shipped);
      }
      return Ok(());
    }

    method AdminDelete(id: string) returns (r: Result<(), Denial>)
      modifies this, orders
      ensures (World(), r) == DeleteStep(old(World()), id)
    {
      var deleted := orders.DeleteOrder(id);
      audit := audit - {id};
      return if deleted.Ok? then Ok(()) else Err(OrderMissing);
    }

    // ----- The label sweep -----

    /** The processing endpoint's loop. `clock` gives, for the i-th row, when it is reached and what its
        job meets. Rows are judged by the copy read when the sweep began. */
    method HandleProcessLabels(now: int, limit: int, clock: nat -> Visit)
      returns (picked: seq<string>, scanned: nat, succeeded: seq<string>, failed: nat, skipped: nat)
      requires forall id | id in orders.rows :: id != ""
      requires forall i :: now <= clock(i).started <= clock(i).env.at
      modifies this, orders
      ensures var visits := VisitsOf(clock, |picked|);
              && SweepPossible(old(World()), now, limit, picked, visits)
              && World() == SweepStep(old(World()), picked, visits)
              && (forall id | id in picked :: id in old(orders.rows))
              && skipped == SkippedOf(old(orders.rows), picked, visits)
              && succeeded == SucceededOf(old(orders.rows), picked, visits)
      ensures scanned == |picked| == |succeeded| + failed + skipped
    {
      hide SweepStep, SkippedOf, SucceededOf, PendingList, Listing, VisitStep, Cooling, VisitsOf, Succeeds,
           SweepPossible;
      var base := LabelBackoff(1);
      var rows := orders.rows;
      picked := orders.ListPendingLabels(now - base, MAX_LABEL_ATTEMPTS, limit);
      PickedRows(rows, now - base, limit, picked);
      var pending := seq(|picked|, i requires 0 <= i < |picked| => rows[picked[i]]);
      scanned, succeeded, failed, skipped := |pending|, [], 0, 0;
      ghost var w, visits := World(), VisitsOf(clock, |picked|);
      EmptySweep(w);
      SweepWasPossible(w, now, limit, clock, picked);
      for i := 0 to |pending|
        invariant World() == SweepStep(w, picked[..i], visits[..i])
        invariant forall j | i <= j < |picked| :: picked[j] in orders.rows && orders.rows[picked[j]] == pending[j]
        invariant i == |succeeded| + failed + skipped
        invariant skipped == SkippedOf(w.orders, picked[..i], visits[..i])
        invariant succeeded == SucceededOf(w.orders, picked[..i], visits[..i])
      {
        SweepNext(w, picked, visits, i);
        var cold, ok := VisitRow(picked[i], pending[i], clock(i));
        if cold {
          skipped := skipped + 1;
          continue;
        }
        if !ok {
          failed := failed + 1;
          continue;
        }
        succeeded := succeeded + [picked[i]];
      }
      assert picked[..|picked|] == picked && visits[..|picked|] == visits;
    }

    lemma EmptySweep(w: Shop.World)
      ensures SweepStep(w, [], []) == w && SkippedOf(w.orders, [], []) == 0 && SucceededOf(w.orders, [], []) == []
    {
    }

    lemma SweepWasPossible(w: Shop.World, now: int, limit: int, clock: nat -> Visit, picked: seq<string>)
      requires PendingList(w.orders, now - Backoff(1), MAX_LABEL_ATTEMPTS, limit, picked)
      requires forall i :: now <= clock(i).started <= clock(i).env.at
      ensures SweepPossible(w, now, limit, picked, VisitsOf(clock, |picked|))
    {
      hide PendingList;
    }

    // One round of the loop: skip a row that is cooling down, else run its job.
    method VisitRow(id: string, o: Order, v: Visit) returns (cold: bool, ok: bool)
      requires id != "" && id in orders.rows && orders.rows[id] == o
      modifies this, orders
      ensures World() == VisitStep(old(World()), id, v)
      ensures cold <==> Cooling(o, v.started)
      ensures !cold && ok <==> Succeeds(o, v)
      ensures orders.rows.Keys == old(orders.rows).Keys
      ensures forall k | k in old(orders.rows) && k != id :: orders.rows[k] == old(orders.rows)[k]
    {
      hide JobStep, Job;
      var delay := LabelBackoff(o.attempts);
      if o.attemptedAt.Some? && v.started - o.attemptedAt.value < delay {
        return true, false;
      }
      JobKeepsOthers(World(), id, v.env);
      var r := Enqueue(id, v.env);
      return false, r.Ok?;
    }

    lemma PickedRows(t: Table, cutoff: int, limit: int, picked: seq<string>)
      requires PendingList(t, cutoff, MAX_LABEL_ATTEMPTS, limit, picked)
      ensures forall i | 0 <= i < |picked| :: picked[i] in t
      ensures forall i, j | 0 <= i < j < |picked| :: picked[i] != picked[j]
    {
    }

    lemma JobKeepsOthers(w: Shop.World, id: string, env: JobEnv)
      ensures JobStep(w, id, env).orders.Keys == w.orders.Keys
      ensures forall k | k in w.orders && k != id :: JobStep(w, id, env).orders[k] == w.orders[k]
    {
    }
  }
}
