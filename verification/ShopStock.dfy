/** What every run of the shop asks of the inventory, order by order and shelf by shelf. */
module ShopStock {
  import opened Wrappers
  import opened Stock
  import opened Orders
  import opened LabelJobs
  import opened Shop
  import opened ShopInvariants
  import opened ShopRuns
  import C = Checkout

  // ----- Reading the log -----

  function Plain(asks: seq<Ask>): (lines: seq<StockLine>)
    ensures |lines| == |asks|
  {
    seq(|asks|, i requires 0 <= i < |asks| => asks[i].line)
  }

  // The lines asked for one order, in order.
  function OrderLog(log: seq<Ask>, id: string): seq<StockLine> {
    if log == [] then []
    else
      var last := log[|log| - 1];
      OrderLog(log[..|log| - 1], id) + (if last.orderID == id then [last.line] else [])
  }

  lemma {:induction false} OrderLogJoin(log: seq<Ask>, more: seq<Ask>, id: string)
    ensures OrderLog(log + more, id) == OrderLog(log, id) + OrderLog(more, id)
  {
    if more == [] {
      assert log + more == log;
    } else {
      var n := |more| - 1;
      assert (log + more)[..|log + more| - 1] == log + more[..n];
      OrderLogJoin(log, more[..n], id);
    }
  }

  lemma {:induction false} OrderLogAsks(buyer: string, lines: seq<StockLine>, id: string)
    ensures OrderLog(Asks(buyer, lines), id) == if buyer == id then lines else []
  {
    if lines != [] {
      var n := |lines| - 1;
      assert Asks(buyer, lines)[..n] == Asks(buyer, lines[..n]);
      OrderLogAsks(buyer, lines[..n], id);
      assert lines[..n] + [lines[n]] == lines;
    }
  }

  lemma LogGrows(log: seq<Ask>, buyer: string, lines: seq<StockLine>, id: string)
    ensures OrderLog(log + Asks(buyer, lines), id) == OrderLog(log, id) + (if buyer == id then lines else [])
  {
    OrderLogJoin(log, Asks(buyer, lines), id);
    OrderLogAsks(buyer, lines, id);
  }

  // ----- What one step does to the accounts -----

  // Of the orders in both states, all but one keep their lines and what is noted about them.
  ghost predicate Undisturbed(w: World, w': World, but: Option<string>) {
    forall k | k in w.orders && k in w'.orders && but != Some(k) ::
      && w'.orders[k].items == w.orders[k].items
      && AuditOf(w', k).paidEvents == AuditOf(w, k).paidEvents && AuditOf(w', k).added == AuditOf(w, k).added
  }

  // Nothing is asked; an order that is new has no payment and no line added by an operator.
  ghost predicate Idle(w: World, w': World) {
    && w'.products == w.products && w'.stockLog == w.stockLog && Undisturbed(w, w', None)
    && forall k | k in w'.orders && k !in w.orders :: AuditOf(w', k).paidEvents == 0 && AuditOf(w', k).added == []
  }

  // Exactly these lines are asked for the order and leave the inventory.
  ghost predicate Asking(w: World, w': World, id: string, lines: seq<StockLine>) {
    && w'.products == DecrementedAll(w.products, lines) && w'.stockLog == w.stockLog + Asks(id, lines)
    && w'.orders.Keys == w.orders.Keys && id in w.orders && Undisturbed(w, w', Some(id))
  }

  // One payment of the order is confirmed: it asks for each of its lines once.
  ghost predicate Payment(w: World, w': World, id: string) {
    && id in w.orders && Asking(w, w', id, StockLines(w.orders[id].items))
    && w'.orders[id].items == w.orders[id].items
    && AuditOf(w', id).paidEvents == AuditOf(w, id).paidEvents + 1 && AuditOf(w', id).added == AuditOf(w, id).added
  }

  // A line is appended to the order, which asks for it.
  ghost predicate Addition(w: World, w': World, id: string, line: Item) {
    && id in w.orders && Asking(w, w', id, StockLines([line])) && w'.orders[id].items == w.orders[id].items + [line]
    && AuditOf(w', id).paidEvents == AuditOf(w, id).paidEvents
    && AuditOf(w', id).added == AuditOf(w, id).added + [AuditOf(w, id).paidEvents]
  }

  lemma JobIsIdle(w: World, id: string, env: JobEnv)
    ensures Idle(w, JobStep(w, id, env)) && JobStep(w, id, env).orders.Keys == w.orders.Keys
  {
    hide Job;
    if id in w.orders {
      JobFacts(w.orders[id], env);
    }
  }

  lemma {:induction false} SweepIsIdle(w: World, picked: seq<string>, visits: seq<Visit>)
    requires |visits| == |picked|
    ensures Idle(w, SweepStep(w, picked, visits)) && SweepStep(w, picked, visits).orders.Keys == w.orders.Keys
  {
    hide JobStep, Cooling;
    if picked != [] {
      var n := |picked| - 1;
      SweepIsIdle(w, picked[..n], visits[..n]);
      JobIsIdle(SweepStep(w, picked[..n], visits[..n]), picked[n], visits[n].env);
    }
  }

  lemma PaidIsPayment(w: World, id: string, env: JobEnv)
    requires id in w.orders
    ensures Payment(w, PaidStep(w, id, env), id)
  {
    hide JobStep, DecrementedAll, StockLines, Asks, Payment, Idle, WithOrder, DrainStock;
    var o, a := w.orders[id], AuditOf(w, id);
    var paid := WithOrder(w, id, o.(status := Paid), a.(paidEvents := a.paidEvents + 1));
    var drained := DrainStock(paid, id, StockLines(o.items));
    DrainIsPayment(w, id, paid);
    JobIsIdle(drained, id, env);
    IdleAfterPayment(w, drained, PaidStep(w, id, env), id);
  }

  lemma DrainIsPayment(w: World, id: string, paid: World)
    requires id in w.orders
    requires var o, a := w.orders[id], AuditOf(w, id);
             paid == WithOrder(w, id, o.(status := Paid), a.(paidEvents := a.paidEvents + 1))
    ensures Payment(w, DrainStock(paid, id, StockLines(w.orders[id].items)), id)
  {
    hide DecrementedAll, StockLines, Asks;
  }

  lemma IdleAfterPayment(w: World, m: World, w': World, id: string)
    requires Payment(w, m, id) && Idle(m, w') && w'.orders.Keys == m.orders.Keys
    ensures Payment(w, w', id)
  {
    hide DecrementedAll, StockLines, Asks;
  }

  lemma DeliveryIsPayment(w: World, id: string, piID: string, env: JobEnv)
    requires id in w.orders
    ensures Payment(w, WebhookStep(w, Some(id), piID, PaymentSucceeded, true, env), id)
  {
    hide PaidStep, DecrementedAll, StockLines, Asks;
    PaidIsPayment(w.(orders := w.orders[id := Linked(w.orders[id], piID)]), id, env);
  }

  lemma AddIsAddition(w: World, fold: (string, string) -> bool, id: string, req: AddRequest) returns (line: Item)
    requires AddItemStep(w, fold, id, req).1.Ok?
    ensures Addition(w, AddItemStep(w, fold, id, req).0, id, line)
  {
    hide OfferedSize, DecrementedAll, Asks;
    var p := w.products[req.productID];
    var size := OfferedSize(fold, p, req.size).value;
    var items := w.orders[id].items;
    line := AddedLine(w.orders[id], p, size, req).(lineNo := MaxLine(items) + 1);
    assert StockLines([line]) == [StockLine(p.id, size, Quantity(req))];
  }

  /** Every step asks the inventory for each line of an order whose payment it confirms, or for the one
      line it appends to an order, and otherwise for nothing; and it counts a payment exactly when it
      confirms one. */
  lemma StepAsks(fold: (string, string) -> bool, w: World, s: Step)
    requires Possible(w, s)
    ensures var w' := Apply(fold, w, s);
            && (forall id | Confirms(w, s, id) :: Payment(w, w', id))
            && ((exists id :: Confirms(w, s, id))
                || (s.DoAddItem? && AddItemStep(w, fold, s.id, s.add).1.Ok? && exists it :: Addition(w, w', s.id, it))
                || Idle(w, w'))
  {
    hide WebhookStep, AddItemStep, JobStep, SweepStep, PaidStep, C.Placed, SweepPossible, Idle, Addition, Payment;
    var w' := Apply(fold, w, s);
    match s {
      case DoWebhook(resolved, piID, event, flipped, env) =>
        if resolved.Some? && Confirms(w, s, resolved.value) {
          DeliveryIsPayment(w, resolved.value, piID, env);
        } else {
          UnconfirmedIsIdle(w, resolved, piID, event, flipped, env);
        }
      case DoMarkPaid(id, env) =>
        if Confirms(w, s, id) {
          PaidIsPayment(w, id, env);
        } else {
          NothingIsIdle(w);
        }
      case DoAddItem(id, add) =>
        if AddItemStep(w, fold, id, add).1.Ok? {
          var line := AddIsAddition(w, fold, id, add);
        } else {
          RefusedAdd(w, fold, id, add);
          NothingIsIdle(w);
        }
      case DoRetryLabel(id, env) => JobIsIdle(w, id, env);
      case DoSweep(_, _, picked, visits) =>
        SweepLengths(w, s);
        SweepIsIdle(w, picked, visits);
      case DoCheckout(req, id, now) => CheckoutIsIdle(w, req, id, now);
      case _ => DeskIsIdle(fold, w, s);
    }
  }

  lemma NothingIsIdle(w: World)
    ensures Idle(w, w)
  {
  }

  lemma UnconfirmedIsIdle(w: World, resolved: Option<string>, piID: string, event: PaymentEvent, flipped: bool,
                          env: JobEnv)
    requires resolved.None? || resolved.value !in w.orders || event != PaymentSucceeded || !flipped
    ensures Idle(w, WebhookStep(w, resolved, piID, event, flipped, env))
  {
    hide PaidStep;
  }

  lemma RefusedAdd(w: World, fold: (string, string) -> bool, id: string, add: AddRequest)
    requires AddItemStep(w, fold, id, add).1.Err?
    ensures AddItemStep(w, fold, id, add).0 == w
  {
    hide OfferedSize, DrainStock, WithOrder;
  }

  lemma CheckoutIsIdle(w: World, req: C.Request, id: string, now: int)
    ensures Idle(w, CheckoutStep(w, req, id, now).0)
  {
    hide C.Placed;
  }

  lemma DeskIsIdle(fold: (string, string) -> bool, w: World, s: Step)
    requires s.DoIntent? || s.DoRefresh? || s.DoMarkShipped? || s.DoDelete?
    ensures Idle(w, Apply(fold, w, s))
  {
    hide Idle, ShipRow;
    NothingIsIdle(w);
    match s {
      case DoIntent(id, intent, _) =>
        if id in w.orders && intent.Some? {
          RewriteIsIdle(w, id, w.orders[id].(paymentIntentID := intent.value));
        }
      case DoRefresh(id, _, info, _, flipped, at) =>
        if id in w.orders && info.Some? {
          ShipKeepsLines(w.orders[id], info.value, flipped, at);
          RewriteIsIdle(w, id, ShipRow(w.orders[id], info.value, flipped, at));
        }
      case DoMarkShipped(id, tracking, _, flipped, at) =>
        if id in w.orders {
          ShipKeepsLines(w.orders[id], tracking, flipped, at);
          RewriteIsIdle(w, id, ShipRow(w.orders[id], tracking, flipped, at));
        }
      case DoDelete(id) => DeleteIsIdle(w, id);
    }
  }

  lemma ShipKeepsLines(o: Order, tracking: Tracking, flipped: bool, at: int)
    ensures ShipRow(o, tracking, flipped, at).items == o.items
  {
  }

  lemma RewriteIsIdle(w: World, id: string, o: Order)
    requires id in w.orders && o.items == w.orders[id].items
    ensures Idle(w, w.(orders := w.orders[id := o]))
  {
  }

  lemma DeleteIsIdle(w: World, id: string)
    ensures Idle(w, DeleteStep(w, id).0)
  {
  }

  // ----- Each order's account -----

  // One size of one product: what it asks of a sequence of lines.
  datatype Shelf = Shelf(product: Product, size: string)

  function Units(shelf: Shelf, lines: seq<StockLine>): int {
    Asked(shelf.product, shelf.size, LinesOf(lines, shelf.product.id))
  }

  lemma {:induction false} UnitsJoin(shelf: Shelf, a: seq<StockLine>, b: seq<StockLine>)
    ensures Units(shelf, a + b) == Units(shelf, a) + Units(shelf, b)
  {
    if b == [] {
      assert a + b == a;
    } else {
      var n := |b| - 1;
      assert (a + b)[..|a + b| - 1] == a + b[..n];
      UnitsJoin(shelf, a, b[..n]);
      UnitsLast(shelf, a + b);
      UnitsLast(shelf, b);
    }
  }

  function UnitsOf(shelf: Shelf, line: StockLine): int {
    if line.productID == shelf.product.id && OnShelf(shelf.product, shelf.size, line) then Clip(line.quantity) else 0
  }

  lemma UnitsLast(shelf: Shelf, lines: seq<StockLine>)
    requires lines != []
    ensures Units(shelf, lines) == Units(shelf, lines[..|lines| - 1]) + UnitsOf(shelf, lines[|lines| - 1])
  {
    var n, id := |lines| - 1, shelf.product.id;
    var before, mine := LinesOf(lines[..n], id), LinesOf(lines, id);
    if lines[n].productID == id {
      assert mine[..|mine| - 1] == before;
    } else {
      assert mine == before;
    }
  }

  function LineOf(it: Item): StockLine {
    StockLine(it.productID, it.size, it.quantity)
  }

  // How often a line is due: a checkout line once per payment, a line added by an operator once at
  // that moment and once per payment confirmed since.
  function TimesDue(added: seq<nat>, paid: nat): int {
    if added == [] then paid else 1 + paid - added[|added| - 1]
  }

  /** The units of a shelf due to an order with these lines: those an operator added are the last ones. */
  function Owed(shelf: Shelf, items: seq<Item>, added: seq<nat>, paid: nat): int {
    if items == [] then 0
    else
      var n := |items| - 1;
      var rest := if added == [] then [] else added[..|added| - 1];
      Owed(shelf, items[..n], rest, paid) + UnitsOf(shelf, LineOf(items[n])) * TimesDue(added, paid)
  }

  lemma {:induction false} OwedOncePaid(shelf: Shelf, items: seq<Item>, added: seq<nat>, paid: nat)
    ensures Owed(shelf, items, added, paid + 1) == Owed(shelf, items, added, paid) + Units(shelf, StockLines(items))
  {
    hide Units, UnitsOf;
    if items == [] {
      assert StockLines(items) == [];
      assert Units(shelf, []) == 0 by { NoUnits(shelf); }
    } else {
      var n := |items| - 1;
      var rest := if added == [] then [] else added[..|added| - 1];
      OwedOncePaid(shelf, items[..n], rest, paid);
      UnitsLast(shelf, StockLines(items));
      assert StockLines(items)[..n] == StockLines(items[..n]);
      OnceMore(UnitsOf(shelf, LineOf(items[n])), TimesDue(added, paid));
    }
  }

  lemma OnceMore(units: int, times: int)
    ensures units * (times + 1) == units * times + units
  {
  }

  lemma NoUnits(shelf: Shelf)
    ensures Units(shelf, []) == 0
  {
  }

  lemma {:induction false} NothingOwed(shelf: Shelf, items: seq<Item>)
    ensures Owed(shelf, items, [], 0) == 0
  {
    if items != [] {
      NothingOwed(shelf, items[..|items| - 1]);
    }
  }

  function Repeat(lines: seq<StockLine>, times: nat): (r: seq<StockLine>)
    ensures |r| == times * |lines|
  {
    if times == 0 then [] else Repeat(lines, times - 1) + lines
  }

  // What has been asked for the order, in all and of one shelf, is what it is due.
  ghost predicate Accounted(w: World, id: string, shelf: Shelf) {
    var asked := OrderLog(w.stockLog, id);
    if id !in w.orders then asked == []
    else
      var items, a := w.orders[id].items, AuditOf(w, id);
      && (a.added == [] ==> asked == Repeat(StockLines(items), a.paidEvents))
      && Units(shelf, asked) == Owed(shelf, items, a.added, a.paidEvents)
  }

  lemma IdleKeepsAccount(w: World, w': World, id: string, shelf: Shelf)
    requires Accounted(w, id, shelf) && Idle(w, w') && (id in w.orders ==> id in w'.orders)
    ensures Accounted(w', id, shelf)
  {
    hide Units, Owed;
    if id in w'.orders && id !in w.orders {
      NothingOwed(shelf, w'.orders[id].items);
      NoUnits(shelf);
    }
  }

  lemma PaymentKeepsAccount(w: World, w': World, buyer: string, id: string, shelf: Shelf)
    requires Accounted(w, id, shelf) && Payment(w, w', buyer)
    ensures Accounted(w', id, shelf)
  {
    hide Units, Owed, OrderLog, StockLines, Asks, DecrementedAll;
    var lines := StockLines(w.orders[buyer].items);
    LogGrows(w.stockLog, buyer, lines, id);
    assert OrderLog(w.stockLog, id) + [] == OrderLog(w.stockLog, id);
    if buyer == id {
      UnitsJoin(shelf, OrderLog(w.stockLog, id), lines);
      OwedOncePaid(shelf, w.orders[id].items, AuditOf(w, id).added, AuditOf(w, id).paidEvents);
    }
  }

  lemma AdditionKeepsAccount(w: World, w': World, buyer: string, line: Item, id: string, shelf: Shelf)
    requires Accounted(w, id, shelf) && Addition(w, w', buyer, line)
    ensures Accounted(w', id, shelf)
  {
    hide Units, Owed, OrderLog, UnitsOf, Asks, DecrementedAll;
    var lines := StockLines([line]);
    LogGrows(w.stockLog, buyer, lines, id);
    assert OrderLog(w.stockLog, id) + [] == OrderLog(w.stockLog, id);
    if buyer == id {
      UnitsJoin(shelf, OrderLog(w.stockLog, id), lines);
      UnitsLast(shelf, lines);
      assert lines[..0] == [];
      NoUnits(shelf);
      OwedAppend(shelf, w.orders[id].items, line, AuditOf(w, id).added, AuditOf(w, id).paidEvents);
    }
  }

  lemma OwedAppend(shelf: Shelf, items: seq<Item>, line: Item, added: seq<nat>, paid: nat)
    ensures Owed(shelf, items + [line], added + [paid], paid)
         == Owed(shelf, items, added, paid) + UnitsOf(shelf, LineOf(line))
  {
    assert (items + [line])[..|items|] == items;
    assert (added + [paid])[..|added|] == added;
  }

  lemma StepKeepsAccount(fold: (string, string) -> bool, w: World, s: Step, id: string, shelf: Shelf)
    requires WorldOk(w) && Possible(w, s) && s != DoDelete(id) && Accounted(w, id, shelf)
    ensures Accounted(Apply(fold, w, s), id, shelf)
  {
    hide WorldOk, Accounted, Apply, Payment, Addition, Idle, Confirms;
    var w' := Apply(fold, w, s);
    StepAsks(fold, w, s);
    StepKeeps(fold, w, s);
    if buyer :| Confirms(w, s, buyer) {
      PaymentKeepsAccount(w, w', buyer, id, shelf);
    } else if it :| s.DoAddItem? && Addition(w, w', s.id, it) {
      AdditionKeepsAccount(w, w', s.id, it, id, shelf);
    } else {
      IdleKeepsAccount(w, w', id, shelf);
    }
  }

  lemma {:induction false} RunKeepsAccount(fold: (string, string) -> bool, w: World, steps: seq<Step>, id: string,
                                           shelf: Shelf)
    requires WorldOk(w) && PossibleRun(fold, w, steps) && DoDelete(id) !in steps && Accounted(w, id, shelf)
    ensures Accounted(Run(fold, w, steps), id, shelf)
    decreases |steps|
  {
    hide WorldOk, Accounted, Apply;
    if steps != [] {
      assert steps[0] in steps;
      StepKeeps(fold, w, steps[0]);
      StepKeepsAccount(fold, w, steps[0], id, shelf);
      RunKeepsAccount(fold, Apply(fold, w, steps[0]), steps[1..], id, shelf);
    }
  }

  lemma {:induction false} RepeatOnce(lines: seq<StockLine>, times: nat)
    requires lines != []
    ensures Repeat(lines, times) == lines <==> times == 1
  {
    assert Repeat(lines, 0) == [] && Repeat(lines, 1) == [] + lines;
    if times > 1 {
      assert times * |lines| > |lines|;
    }
  }

  /** Over any run that does not delete it, what the inventory was asked for an order that no operator
      has edited is its stored lines, once for every payment confirmed: so exactly once if and only if
      one payment was. For any order, edited or not, it is what each of its lines is due: a checkout
      line once per payment, an added line once more than the payments confirmed after it. */
  lemma OrderAsksWhatItOwes(fold: (string, string) -> bool, catalog: Products, steps: seq<Step>, id: string,
                            shelf: Shelf)
    requires C.ValidCatalog(catalog) && PossibleRun(fold, Opening(catalog), steps) && DoDelete(id) !in steps
    requires id in Run(fold, Opening(catalog), steps).orders
    ensures var w := Run(fold, Opening(catalog), steps);
            var lines, a, asked := StockLines(w.orders[id].items), AuditOf(w, id), OrderLog(w.stockLog, id);
            && lines != []
            && (a.added == [] ==> asked == Repeat(lines, a.paidEvents) && (asked == lines <==> a.paidEvents == 1))
            && Units(shelf, asked) == Owed(shelf, w.orders[id].items, a.added, a.paidEvents)
  {
    hide Run, PossibleRun, Owed, Units, RowOk;
    OpeningOk(catalog);
    RunKeepsAccount(fold, Opening(catalog), steps, id, shelf);
    RunKeeps(fold, Opening(catalog), steps);
    var w := Run(fold, Opening(catalog), steps);
    WorldRow(w, id);
    HasLines(w.orders[id], w.audit[id]);
    RepeatOnce(StockLines(w.orders[id].items), AuditOf(w, id).paidEvents);
  }

  lemma HasLines(o: Order, a: Audit)
    requires RowOk(o, a)
    ensures o.items != []
  {
  }

  // ----- The inventory -----

  lemma {:induction false} RunDrains(fold: (string, string) -> bool, w: World, steps: seq<Step>)
    requires PossibleRun(fold, w, steps) && w.stockLog == []
    ensures var w' := Run(fold, w, steps); w'.products == DecrementedAll(w.products, Plain(w'.stockLog))
  {
    assert Plain([]) == [];
    RunDrainsFrom(fold, w.products, w, steps);
  }

  lemma {:induction false} RunDrainsFrom(fold: (string, string) -> bool, start: Products, w: World, steps: seq<Step>)
    requires PossibleRun(fold, w, steps) && w.products == DecrementedAll(start, Plain(w.stockLog))
    ensures var w' := Run(fold, w, steps); w'.products == DecrementedAll(start, Plain(w'.stockLog))
    decreases |steps|
  {
    hide Apply, DecrementedAll, Plain, Possible;
    if steps != [] {
      StepDrains(fold, start, w, steps[0]);
      RunDrainsFrom(fold, start, Apply(fold, w, steps[0]), steps[1..]);
    }
  }

  lemma StepDrains(fold: (string, string) -> bool, start: Products, w: World, s: Step)
    requires Possible(w, s) && w.products == DecrementedAll(start, Plain(w.stockLog))
    ensures var w' := Apply(fold, w, s); w'.products == DecrementedAll(start, Plain(w'.stockLog))
  {
    hide Apply, DecrementedAll, Plain, Possible, Confirms, StockLines, Asks, Undisturbed;
    var w' := Apply(fold, w, s);
    StepAsks(fold, w, s);
    if buyer :| Confirms(w, s, buyer) {
      AskingDrains(start, w, w', buyer, StockLines(w.orders[buyer].items));
    } else if it :| s.DoAddItem? && Addition(w, w', s.id, it) {
      AskingDrains(start, w, w', s.id, StockLines([it]));
    }
  }

  lemma AskingDrains(start: Products, w: World, w': World, id: string, lines: seq<StockLine>)
    requires w.products == DecrementedAll(start, Plain(w.stockLog)) && Asking(w, w', id, lines)
    ensures w'.products == DecrementedAll(start, Plain(w'.stockLog))
  {
    hide DecrementedAll;
    DecrementsCompose(start, Plain(w.stockLog), lines);
    assert Plain(w.stockLog + Asks(id, lines)) == Plain(w.stockLog) + lines;
  }

  /** After any run, every shelf holds max(0, what it opened with minus all units asked of it). Nothing is
      negative, no product appears or disappears, and total columns that were the sum of their sizes
      still are. */
  lemma StockAfterRun(fold: (string, string) -> bool, catalog: Products, steps: seq<Step>, id: string, size: string)
    requires C.ValidCatalog(catalog) && PossibleRun(fold, Opening(catalog), steps) && id in catalog
    ensures var w := Run(fold, Opening(catalog), steps); var before := catalog[id];
            && w.products.Keys == catalog.Keys
            && var after := w.products[id];
            && NonNegative(after) && SameItem(before, after)
            && Available(after, size) == Clip(Available(before, size) - Units(Shelf(before, size), Plain(w.stockLog)))
            && (Balanced(before) ==> Balanced(after))
  {
    hide Run, PossibleRun, Available, Asked, NonNegative, SameItem, Balanced, LinesOf, DecrementedAll, Plain;
    RunDrains(fold, Opening(catalog), steps);
    ShelfAfter(catalog, Plain(Run(fold, Opening(catalog), steps).stockLog), id, size);
  }

  lemma ShelfAfter(catalog: Products, lines: seq<StockLine>, id: string, size: string)
    requires C.ValidCatalog(catalog) && id in catalog
    ensures var after := DecrementedAll(catalog, lines); var before := catalog[id];
            && after.Keys == catalog.Keys && NonNegative(after[id]) && SameItem(before, after[id])
            && Available(after[id], size) == Clip(Available(before, size) - Units(Shelf(before, size), lines))
            && (Balanced(before) ==> Balanced(after[id]))
  {
    hide DecrementedAll, TakeAll, SumOf, Asked, LinesOf;
    assert C.ValidProduct(catalog[id]);
    ProductsAreIndependent(catalog, lines, id);
    LinesAreOneBatch(catalog[id], LinesOf(lines, id), size);
    if !Legacy(catalog[id]) {
      TotalFollowsSizes(catalog[id], LinesOf(lines, id));
    }
  }

  // ----- The log is its orders' shares -----

  function Shares(log: seq<Ask>, ids: set<string>, shelf: Shelf): (shares: map<string, int>)
    ensures shares.Keys == ids
  {
    map id | id in ids :: Units(shelf, OrderLog(log, id))
  }

  lemma {:induction false} ZeroSum(m: map<string, int>)
    requires forall k | k in m :: m[k] == 0
    ensures SumOf(m) == 0
    decreases |m|
  {
    if m != map[] {
      var k :| k in m;
      SumWithout(m, k);
      ZeroSum(m - {k});
    }
  }

  lemma {:induction false} LogIsItsShares(log: seq<Ask>, ids: set<string>, shelf: Shelf)
    requires forall i | 0 <= i < |log| :: log[i].orderID in ids
    ensures Units(shelf, Plain(log)) == SumOf(Shares(log, ids, shelf))
  {
    hide Units, SumOf, UnitsOf;
    if log == [] {
      NoUnits(shelf);
      ZeroSum(Shares(log, ids, shelf));
    } else {
      var n := |log| - 1;
      var buyer, line := log[n].orderID, log[n].line;
      LogIsItsShares(log[..n], ids, shelf);
      UnitsLast(shelf, Plain(log));
      assert Plain(log)[..n] == Plain(log[..n]);
      ShareGrows(log, ids, shelf);
      var before := Shares(log[..n], ids, shelf);
      SumUpdate(before, buyer, before[buyer] + UnitsOf(shelf, line));
    }
  }

  lemma ShareGrows(log: seq<Ask>, ids: set<string>, shelf: Shelf)
    requires log != [] && log[|log| - 1].orderID in ids
    ensures var n := |log| - 1; var buyer, before := log[n].orderID, Shares(log[..n], ids, shelf);
            Shares(log, ids, shelf) == before[buyer := before[buyer] + UnitsOf(shelf, log[n].line)]
  {
    hide Units, UnitsOf, OrderLog;
    var n := |log| - 1;
    forall id | id in ids
      ensures Units(shelf, OrderLog(log, id))
           == Units(shelf, OrderLog(log[..n], id)) + (if log[n].orderID == id then UnitsOf(shelf, log[n].line) else 0)
    {
      OneMoreAsk(log, id, shelf);
    }
  }

  lemma OneMoreAsk(log: seq<Ask>, id: string, shelf: Shelf)
    requires log != []
    ensures var n := |log| - 1;
            Units(shelf, OrderLog(log, id))
            == Units(shelf, OrderLog(log[..n], id)) + (if log[n].orderID == id then UnitsOf(shelf, log[n].line) else 0)
  {
    hide Units, UnitsOf;
    var n := |log| - 1;
    var before := OrderLog(log[..n], id);
    if log[n].orderID == id {
      UnitsLast(shelf, before + [log[n].line]);
      assert (before + [log[n].line])[..|before|] == before;
    } else {
      assert before + [] == before;
    }
  }

  // What each order in the state is due of a shelf.
  function Dues(w: World, shelf: Shelf): (dues: map<string, int>)
    ensures dues.Keys == w.orders.Keys
  {
    map id | id in w.orders :: Owed(shelf, w.orders[id].items, AuditOf(w, id).added, AuditOf(w, id).paidEvents)
  }

  ghost predicate NoStrangers(w: World) {
    forall i | 0 <= i < |w.stockLog| :: w.stockLog[i].orderID in w.orders
  }

  lemma StepAddsNoStranger(fold: (string, string) -> bool, w: World, s: Step)
    requires WorldOk(w) && Possible(w, s) && !s.DoDelete? && NoStrangers(w)
    ensures NoStrangers(Apply(fold, w, s))
  {
    hide WorldOk, Apply, Possible, Confirms, StockLines, Undisturbed, DecrementedAll;
    StepAsks(fold, w, s);
    StepKeeps(fold, w, s);
  }

  lemma {:induction false} RunAddsNoStranger(fold: (string, string) -> bool, w: World, steps: seq<Step>)
    requires WorldOk(w) && PossibleRun(fold, w, steps) && NoStrangers(w)
    requires forall s | s in steps :: !s.DoDelete?
    ensures NoStrangers(Run(fold, w, steps))
    decreases |steps|
  {
    hide WorldOk, Apply, NoStrangers;
    if steps != [] {
      assert steps[0] in steps;
      StepKeeps(fold, w, steps[0]);
      StepAddsNoStranger(fold, w, steps[0]);
      RunAddsNoStranger(fold, Apply(fold, w, steps[0]), steps[1..]);
    }
  }

  /** When no order is deleted, every shelf holds max(0, what it opened with minus the sum of what the
      orders are due of it): each checkout line once per confirmed payment, each added line once more
      than the payments confirmed after it. */
  lemma ShelvesHoldWhatIsNotDue(fold: (string, string) -> bool, catalog: Products, steps: seq<Step>, id: string,
                                size: string)
    requires C.ValidCatalog(catalog) && PossibleRun(fold, Opening(catalog), steps) && id in catalog
    requires forall s | s in steps :: !s.DoDelete?
    ensures var w := Run(fold, Opening(catalog), steps);
            && id in w.products
            && Available(w.products[id], size)
               == Clip(Available(catalog[id], size) - SumOf(Dues(w, Shelf(catalog[id], size))))
  {
    hide Run, PossibleRun, Available, SumOf, Units, Owed, Plain, SameItem, NonNegative, Balanced, OrderLog;
    var w0, shelf := Opening(catalog), Shelf(catalog[id], size);
    var w := Run(fold, w0, steps);
    StockAfterRun(fold, catalog, steps, id, size);
    OpeningOk(catalog);
    RunAddsNoStranger(fold, w0, steps);
    LogIsItsShares(w.stockLog, w.orders.Keys, shelf);
    forall k | k in w.orders
      ensures Units(shelf, OrderLog(w.stockLog, k))
           == Owed(shelf, w.orders[k].items, AuditOf(w, k).added, AuditOf(w, k).paidEvents)
    {
      OrderAsksWhatItOwes(fold, catalog, steps, k, shelf);
    }
    assert Shares(w.stockLog, w.orders.Keys, shelf) == Dues(w, shelf);
  }
}
