/** The order lifecycle as a step machine: what every request handler and the label sweep do to the
    orders and the inventory (backend/main.go, payments.go, admin_orders.go, internal_jobs.go). A
    handler is one step. Beside the tables, the state keeps what the proofs count: per order, the
    payments confirmed, the times it was put in the carrier's cart, the writes lost after that, the
    shipping quoted at checkout and, for each line an operator added, the payments confirmed before it;
    and every line the inventory was asked for, with the order it was for. */
module Shop {
  import opened Wrappers
  import opened Stock
  import opened Orders
  import opened LabelJobs
  import C = Checkout

  datatype Audit = Audit(paidEvents: nat, cartAdds: nat, lostWrites: nat, quotedShipping: int, added: seq<nat>)

  // A line asked of the inventory for an order.
  datatype Ask = Ask(orderID: string, line: StockLine)

  datatype World = World(orders: Table, products: Products, audit: map<string, Audit>, stockLog: seq<Ask>)

  datatype Denial =
    | Refused(reason: C.Refusal) | NotSaved | OrderMissing | NotPix | NotPending | AlreadyPaid
    | ProviderFailed | ProductIdRequired | BadMode | NotEditable | ProductMissing | SizeUnavailable
    | NotPersisted | CodeRequired | ShippingUnavailable | NoSuperfreteId | UpstreamDown

  function AuditOf(w: World, id: string): Audit {
    if id in w.audit then w.audit[id] else Audit(0, 0, 0, 0, [])
  }

  function WithOrder(w: World, id: string, o: Order, a: Audit): World {
    w.(orders := w.orders[id := o], audit := w.audit[id := a])
  }

  // ----- Shared pieces -----

  function JobStep(w: World, id: string, env: JobEnv): World {
    if id !in w.orders then w
    else
      var out, a := Job(w.orders[id], env), AuditOf(w, id);
      WithOrder(w, id, out.row, a.(cartAdds := a.cartAdds + out.cartAdds, lostWrites := a.lostWrites + out.lostWrites))
  }

  function Asks(id: string, lines: seq<StockLine>): (asks: seq<Ask>)
    ensures |asks| == |lines|
  {
    seq(|lines|, i requires 0 <= i < |lines| => Ask(id, lines[i]))
  }

  function DrainStock(w: World, id: string, lines: seq<StockLine>): World {
    w.(products := DecrementedAll(w.products, lines), stockLog := w.stockLog + Asks(id, lines))
  }

  // The order becomes paid; its lines leave the inventory; its label is attempted.
  function PaidStep(w: World, id: string, env: JobEnv): World
    requires id in w.orders
  {
    var o, a := w.orders[id], AuditOf(w, id);
    var paid := WithOrder(w, id, o.(status := Paid), a.(paidEvents := a.paidEvents + 1));
    JobStep(DrainStock(paid, id, StockLines(o.items)), id, env)
  }

  // ----- Checkout and payment -----

  function CheckoutStep(w: World, req: C.Request, id: string, now: int): (World, Result<(), Denial>) {
    match C.Placed(w.products, req, id, now)
    case Err(refusal) => (w, Err(Refused(refusal)))
    case Ok(o) =>
      if id == "" || id in w.orders then (w, Err(NotSaved))
      else (WithOrder(w, id, o.(items := Numbered(o.items)), Audit(0, 0, 0, C.Quote(req).0, [])), Ok(()))
  }

  // `intent` is the payment provider's answer; the link to it may fail to be saved.
  function IntentStep(w: World, id: string, intent: Option<string>, saved: bool): (World, Result<(), Denial>) {
    if id !in w.orders then (w, Err(OrderMissing))
    else if w.orders[id].status == Paid then (w, Err(AlreadyPaid))
    else if intent.None? then (w, Err(ProviderFailed))
    else if !saved then (w, Ok(()))
    else (w.(orders := w.orders[id := w.orders[id].(paymentIntentID := intent.value)]), Ok(()))
  }

  // The row once an event has linked a missing payment intent.
  function Linked(o: Order, piID: string): Order {
    if o.paymentIntentID == "" then o.(paymentIntentID := piID) else o
  }

  datatype PaymentEvent = PaymentSucceeded | PaymentFailedOrCanceled | OtherEvent

  // The order an event is about: by its metadata, else by its payment intent.
  ghost predicate Resolves(t: Table, metadataID: string, piID: string, resolved: Option<string>) {
    if metadataID != "" && metadataID in t then resolved == Some(metadataID) else FoundByIntent(t, piID, resolved)
  }

  function WebhookStep(w: World, resolved: Option<string>, piID: string, event: PaymentEvent, flipped: bool,
                       env: JobEnv): World {
    if event == OtherEvent || resolved.None? || resolved.value !in w.orders then w
    else
      var id := resolved.value;
      var linked := Linked(w.orders[id], piID);
      var w' := w.(orders := w.orders[id := linked]);
      if !flipped then w'
      else if event == PaymentFailedOrCanceled then w'.(orders := w'.orders[id := linked.(status := Failed)])
      else PaidStep(w', id, env)
  }

  function MarkPaidStep(w: World, id: string, env: JobEnv): (World, Result<(), Denial>) {
    if id !in w.orders then (w, Err(OrderMissing))
    else if w.orders[id].method_ != Pix then (w, Err(NotPix))
    else if w.orders[id].status != PendingPayment then (w, Err(NotPending))
    else (PaidStep(w, id, env), Ok(()))
  }

  // ----- Operator actions -----

  datatype Mode = Gift | Extra | OtherMode

  datatype AddRequest = AddRequest(productID: string, size: string, quantity: int, mode: Mode)

  // The catalog's spelling of a requested size: the first that matches it.
  function MatchSize(fold: (string, string) -> bool, sizes: seq<string>, size: string): Option<string> {
    if sizes == [] then None
    else if fold(sizes[0], size) then Some(sizes[0])
    else MatchSize(fold, sizes[1..], size)
  }

  function OfferedSize(fold: (string, string) -> bool, p: Product, size: string): Option<string> {
    if size != "" && |p.sizes| > 0 then MatchSize(fold, p.sizes, size) else Some(size)
  }

  function Quantity(req: AddRequest): (q: int)
    ensures 0 < q
  {
    if req.quantity <= 0 then 1 else req.quantity
  }

  function AddedLine(o: Order, p: Product, size: string, req: AddRequest): Item {
    var unit := if req.mode == Extra then
                  (if o.method_ == Pix && p.pixPriceCents > 0 then p.pixPriceCents else p.priceCents)
                else 0;
    Item(0, p.id, p.name, size, "", Quantity(req), unit)
  }

  predicate Editable(s: Status) {
    s == PendingPayment || s == Paid || s == AwaitingShipment
  }

  function NoteAdded(a: Audit): Audit {
    a.(added := a.added + [a.paidEvents])
  }

  function AddItemStep(w: World, fold: (string, string) -> bool, id: string, req: AddRequest)
    : (World, Result<(), Denial>)
  {
    if req.productID == "" then (w, Err(ProductIdRequired))
    else if req.mode == OtherMode then (w, Err(BadMode))
    else if id !in w.orders then (w, Err(OrderMissing))
    else if !Editable(w.orders[id].status) then (w, Err(NotEditable))
    else if req.productID !in w.products then (w, Err(ProductMissing))
    else
      var p := w.products[req.productID];
      var size := OfferedSize(fold, p, req.size);
      if size.None? then (w, Err(SizeUnavailable))
      else
        var o, line := w.orders[id], AddedLine(w.orders[id], p, size.value, req);
        var w' := WithOrder(w, id, WithItem(o, line, req.mode == Extra), NoteAdded(AuditOf(w, id)));
        (DrainStock(w', id, [StockLine(p.id, size.value, line.quantity)]), Ok(()))
  }

  /** What the carrier knows of a shipment: None when the call fails, an empty code while none is issued. */
  datatype Tracking = Tracking(code: string, url: string)

  // Saving a tracking code and then flipping the status: either write may fail.
  function ShipRow(o: Order, t: Tracking, flipped: bool, at: int): Order {
    var tracked := WithTracking(o, t.code, t.url, o.labelURL, o.superfreteID, at);
    if flipped then tracked.(status := Shipped) else tracked
  }

  function RefreshStep(w: World, id: string, configured: bool, info: Option<Tracking>, saved: bool, flipped: bool,
                       at: int): (World, Result<bool, Denial>) {
    if !configured then (w, Err(ShippingUnavailable))
    else if id !in w.orders then (w, Err(OrderMissing))
    else
      var o := w.orders[id];
      if o.superfreteID == "" then (w, Err(NoSuperfreteId))
      else if o.trackingCode != "" then (w, Ok(false))
      else if info.None? then (w, Err(UpstreamDown))
      else if info.value.code == "" then (w, Ok(false))
      else if !saved then (w, Err(NotPersisted))
      else (w.(orders := w.orders[id := ShipRow(o, info.value, flipped, at)]), Ok(true))
  }

  // `t` carries the trimmed code and the trimmed or default link.
  function MarkShippedStep(w: World, id: string, t: Tracking, saved: bool, flipped: bool, at: int)
    : (World, Result<(), Denial>)
  {
    if t.code == "" then (w, Err(CodeRequired))
    else if id !in w.orders then (w, Err(OrderMissing))
    else if !saved then (w, Err(NotPersisted))
    else (w.(orders := w.orders[id := ShipRow(w.orders[id], t, flipped, at)]), Ok(()))
  }

  function DeleteStep(w: World, id: string): (World, Result<(), Denial>) {
    (w.(orders := w.orders - {id}, audit := w.audit - {id}), if id in w.orders then Ok(()) else Err(OrderMissing))
  }

  // ----- The label sweep -----

  // When the sweep reached a row, and what its job met there.
  datatype Visit = Visit(started: int, env: JobEnv)

  // A row still cooling down is skipped.
  predicate Cooling(o: Order, started: int) {
    o.attemptedAt.Some? && started - o.attemptedAt.value < Backoff(o.attempts)
  }

  // The job runs on the row and reports no error.
  predicate Succeeds(o: Order, v: Visit) {
    !Cooling(o, v.started) && v.env.configured && v.env.loaded && Job(o, v.env).failed.None?
  }

  function VisitStep(w: World, id: string, v: Visit): World {
    if id in w.orders && !Cooling(w.orders[id], v.started) then JobStep(w, id, v.env) else w
  }

  function SweepStep(w: World, picked: seq<string>, visits: seq<Visit>): World
    requires |visits| == |picked|
  {
    if picked == [] then w
    else
      var n := |picked| - 1;
      VisitStep(SweepStep(w, picked[..n], visits[..n]), picked[n], visits[n])
  }

  // How many of the picked rows the sweep skips, by what they said when it began.
  function SkippedOf(t: Table, picked: seq<string>, visits: seq<Visit>): nat
    requires |visits| == |picked| && forall id | id in picked :: id in t
  {
    if picked == [] then 0
    else
      var n := |picked| - 1;
      SkippedOf(t, picked[..n], visits[..n]) + (if Cooling(t[picked[n]], visits[n].started) then 1 else 0)
  }

  // The picked rows whose job succeeds, by what they said when the sweep began.
  function SucceededOf(t: Table, picked: seq<string>, visits: seq<Visit>): seq<string>
    requires |visits| == |picked| && forall id | id in picked :: id in t
  {
    if picked == [] then []
    else
      var n := |picked| - 1;
      SucceededOf(t, picked[..n], visits[..n]) + (if Succeeds(t[picked[n]], visits[n]) then [picked[n]] else [])
  }

  function VisitsOf(clock: nat -> Visit, n: nat): (visits: seq<Visit>)
    ensures |visits| == n && forall i | 0 <= i < n :: visits[i] == clock(i)
  {
    seq(n, i requires 0 <= i < n => clock(i))
  }

  lemma SweepNext(w: World, picked: seq<string>, visits: seq<Visit>, i: nat)
    requires i < |picked| == |visits|
    ensures SweepStep(w, picked[..i + 1], visits[..i + 1])
         == VisitStep(SweepStep(w, picked[..i], visits[..i]), picked[i], visits[i])
    ensures (forall id | id in picked :: id in w.orders) ==>
              SkippedOf(w.orders, picked[..i + 1], visits[..i + 1])
              == SkippedOf(w.orders, picked[..i], visits[..i])
                 + (if Cooling(w.orders[picked[i]], visits[i].started) then 1 else 0)
    ensures (forall id | id in picked :: id in w.orders) ==>
              SucceededOf(w.orders, picked[..i + 1], visits[..i + 1])
              == SucceededOf(w.orders, picked[..i], visits[..i])
                 + (if Succeeds(w.orders[picked[i]], visits[i]) then [picked[i]] else [])
  {
    assert picked[..i + 1][..i] == picked[..i] && visits[..i + 1][..i] == visits[..i];
  }

  // The rows a sweep at `now` may pick, and when it can have reached them.
  ghost predicate SweepPossible(w: World, now: int, limit: int, picked: seq<string>, visits: seq<Visit>) {
    && PendingList(w.orders, now - Backoff(1), MAX_LABEL_ATTEMPTS, limit, picked)
    && |visits| == |picked|
    && forall i | 0 <= i < |visits| :: now <= visits[i].started <= visits[i].env.at
  }

  // ----- Runs -----

  datatype Step =
    | DoCheckout(req: C.Request, id: string, now: int)
    | DoIntent(id: string, intent: Option<string>, saved: bool)
    | DoWebhook(resolved: Option<string>, piID: string, event: PaymentEvent, flipped: bool, env: JobEnv)
    | DoMarkPaid(id: string, env: JobEnv)
    | DoAddItem(id: string, add: AddRequest)
    | DoRetryLabel(id: string, env: JobEnv)
    | DoSweep(now: int, limit: int, picked: seq<string>, visits: seq<Visit>)
    | DoRefresh(id: string, configured: bool, info: Option<Tracking>, saved: bool, flipped: bool, at: int)
    | DoMarkShipped(id: string, tracking: Tracking, saved: bool, flipped: bool, at: int)
    | DoDelete(id: string)

  ghost predicate Possible(w: World, s: Step) {
    match s
    case DoCheckout(req, _, _) => C.ValidRequest(req)
    case DoWebhook(resolved, piID, _, _, _) => exists metadataID :: Resolves(w.orders, metadataID, piID, resolved)
    case DoSweep(now, limit, picked, visits) => SweepPossible(w, now, limit, picked, visits)
    case _ => true
  }

  ghost function Apply(fold: (string, string) -> bool, w: World, s: Step): World
    requires Possible(w, s)
  {
    match s
    case DoCheckout(req, id, now) => CheckoutStep(w, req, id, now).0
    case DoIntent(id, intent, saved) => IntentStep(w, id, intent, saved).0
    case DoWebhook(resolved, piID, event, flipped, env) => WebhookStep(w, resolved, piID, event, flipped, env)
    case DoMarkPaid(id, env) => MarkPaidStep(w, id, env).0
    case DoAddItem(id, add) => AddItemStep(w, fold, id, add).0
    case DoRetryLabel(id, env) => JobStep(w, id, env)
    case DoSweep(_, _, picked, visits) => SweepStep(w, picked, visits)
    case DoRefresh(id, configured, info, saved, flipped, at) =>
      RefreshStep(w, id, configured, info, saved, flipped, at).0
    case DoMarkShipped(id, tracking, saved, flipped, at) => MarkShippedStep(w, id, tracking, saved, flipped, at).0
    case DoDelete(id) => DeleteStep(w, id).0
  }

  // Every step of the run is possible where it happens.
  ghost predicate PossibleRun(fold: (string, string) -> bool, w: World, steps: seq<Step>)
    decreases |steps|
  {
    steps == [] || (Possible(w, steps[0]) && PossibleRun(fold, Apply(fold, w, steps[0]), steps[1..]))
  }

  ghost function Run(fold: (string, string) -> bool, w: World, steps: seq<Step>): World
    requires PossibleRun(fold, w, steps)
    decreases |steps|
  {
    if steps == [] then w else Run(fold, Apply(fold, w, steps[0]), steps[1..])
  }

  // A shop before its first order.
  function Opening(products: Products): World {
    World(map[], products, map[], [])
  }
}
