/** The orders table (backend/store.go): rows with their line items, and the statements the handlers
    run against it. Each statement or transaction is one atomic step; the empty string stands for a
    NULL text column; instants are nanoseconds. What a line is worth is computed in Go's 64-bit
    arithmetic. */
module Orders {
  import opened Wrappers
  import opened Int64
  import opened Sequences
  import opened Packages
  import Stock

  datatype Status = PendingPayment | Paid | Failed | AwaitingShipment | Shipped

  datatype PaymentMethod = Pix | Card

  // Where a label attempt failed.
  datatype Stage =
    | LoadOrder | BuildingPackages | AddressLookup | SenderAddress | AddToCart | MarkAwaiting
    | BuyLabel | GenerateLabel | PrintLabel | SaveTracking

  datatype Item = Item(lineNo: int, productID: string, productName: string, size: string, color: string,
                       quantity: int, unitPriceCents: int)

  datatype Order = Order(
    id: string, method_: PaymentMethod, status: Status,
    totalCents: int, shippingCents: int, amountCents: int, discountCents: int, couponCode: string,
    shippingSvcID: int, paymentIntentID: string,
    trackingCode: string, trackingURL: string, labelURL: string, superfreteID: string,
    attempts: nat, lastError: Option<Stage>, attemptedAt: Option<int>, createdAt: int,
    items: seq<Item>)

  type Table = map<string, Order>

  datatype StoreError = MissingId | DuplicateId | BadQuantity | NotFound

  // ----- Row updates -----

  function WithTracking(o: Order, code: string, url: string, pdf: string, superfreteID: string, now: int): Order {
    o.(trackingCode := code, trackingURL := url, labelURL := pdf, superfreteID := superfreteID,
       lastError := None, attemptedAt := Some(now))
  }

  function Awaiting(o: Order, superfreteID: string, now: int): Order {
    o.(status := AwaitingShipment, superfreteID := superfreteID, lastError := None, attemptedAt := Some(now))
  }

  function WithFailure(o: Order, stage: Stage, now: int): Order {
    o.(attempts := o.attempts + 1, lastError := Some(stage), attemptedAt := Some(now))
  }

  function MaxLine(items: seq<Item>): int {
    if items == [] then 0
    else
      var prev, last := MaxLine(items[..|items| - 1]), items[|items| - 1].lineNo;
      if |items| == 1 || last > prev then last else prev
  }

  function LineWorth(item: Item): int {
    Wrap(item.unitPriceCents * item.quantity)
  }

  function WithItem(o: Order, item: Item, bumpTotals: bool): Order {
    var line := item.(lineNo := MaxLine(o.items) + 1);
    var delta := if bumpTotals then LineWorth(item) else 0;
    o.(items := o.items + [line], totalCents := o.totalCents + delta, amountCents := o.amountCents + delta)
  }

  // Rows are stored under their own id, lines in line-number order starting at 1.
  function Numbered(items: seq<Item>): (r: seq<Item>)
    ensures |r| == |items|
  {
    seq(|items|, i requires 0 <= i < |items| => items[i].(lineNo := i + 1))
  }

  // ----- The pending-labels query -----

  predicate PendingLabel(o: Order, cutoff: int, maxAttempts: int) {
    && o.status == Paid && o.trackingCode == "" && o.attempts < maxAttempts
    && (o.attemptedAt.None? || o.attemptedAt.value <= cutoff)
  }

  // ORDER BY tracking_attempts ASC, created_at ASC
  predicate Precedes(a: Order, b: Order) {
    a.attempts < b.attempts || (a.attempts == b.attempts && a.createdAt <= b.createdAt)
  }

  function EffectiveLimit(limit: int): (n: nat)
    ensures 0 < n
  {
    if limit <= 0 then 25 else limit
  }

  // An answer the database may give: ties may come in any order.
  ghost predicate PendingList(t: Table, cutoff: int, maxAttempts: int, limit: int, ids: seq<string>) {
    && Distinct(ids) && |ids| <= EffectiveLimit(limit)
    && (forall i | 0 <= i < |ids| :: ids[i] in t && PendingLabel(t[ids[i]], cutoff, maxAttempts))
    && (forall i, j | 0 <= i < j < |ids| :: Precedes(t[ids[i]], t[ids[j]]))
    && (forall id | id in t && PendingLabel(t[id], cutoff, maxAttempts) && id !in ids ::
          |ids| == EffectiveLimit(limit) && forall i | 0 <= i < |ids| :: Precedes(t[ids[i]], t[id]))
  }

  // The same by the columns alone: distinct rows that are paid, without a tracking code, with fewer than
  // the maximal attempts and not attempted after the cutoff; fewest attempts first, then oldest first;
  // and as many of the first ones as the limit allows.
  ghost predicate Listing(t: Table, cutoff: int, maxAttempts: int, limit: int, ids: seq<string>) {
    && |ids| <= limit
    && (forall i | 0 <= i < |ids| ::
          && ids[i] in t && t[ids[i]].status == Paid && t[ids[i]].trackingCode == "" && t[ids[i]].attempts < maxAttempts
          && (t[ids[i]].attemptedAt.Some? ==> t[ids[i]].attemptedAt.value <= cutoff))
    && (forall i, j | 0 <= i < j < |ids| ::
          && ids[i] != ids[j] && t[ids[i]].attempts <= t[ids[j]].attempts
          && (t[ids[i]].attempts == t[ids[j]].attempts ==> t[ids[i]].createdAt <= t[ids[j]].createdAt))
    && (forall id | id in t && id !in ids ::
          && t[id].status == Paid && t[id].trackingCode == "" && t[id].attempts < maxAttempts
          && (t[id].attemptedAt.Some? ==> t[id].attemptedAt.value <= cutoff)
          ==> && |ids| == limit
              && forall i | 0 <= i < |ids| ::
                   && t[ids[i]].attempts <= t[id].attempts
                   && (t[ids[i]].attempts == t[id].attempts ==> t[ids[i]].createdAt <= t[id].createdAt))
  }

  lemma PendingListIsListing(t: Table, cutoff: int, maxAttempts: int, limit: int, ids: seq<string>)
    requires PendingList(t, cutoff, maxAttempts, limit, ids)
    ensures Listing(t, cutoff, maxAttempts, if limit <= 0 then 25 else limit, ids)
  {
  }

  // ----- The store -----

  class OrderStore {
    var rows: map<string, Order>

    constructor ()
      ensures rows == map[]
    {
      rows := map[];
    }

    method Create(o: Order) returns (r: Result<(), StoreError>)
      modifies this
      ensures r == if o.id == "" then Err(MissingId) else if o.id in old(rows) then Err(DuplicateId) else Ok(())
      ensures rows == if r.Ok? then old(rows)[o.id := o.(items := Numbered(o.items))] else old(rows)
    {
      if o.id == "" {
        return Err(MissingId);
      }
      if o.id in rows {
        return Err(DuplicateId);
      }
      var items := [];
      for i := 0 to |o.items|
        invariant items == Numbered(o.items)[..i]
      {
        items := items + [o.items[i].(lineNo := i + 1)];
      }
      assert items == Numbered(o.items);
      rows := rows[o.id := o.(items := items)];
      return Ok(());
    }

    method ByPaymentIntent(piID: string) returns (r: Option<string>)
      ensures FoundByIntent(rows, piID, r)
    {
      if piID == "" {
        return None;
      }
      if exists id :: id in rows && rows[id].paymentIntentID == piID {
        var id :| id in rows && rows[id].paymentIntentID == piID;
        return Some(id);
      }
      return None;
    }

    method SetPaymentIntent(id: string, piID: string)
      modifies this
      ensures rows == if id in old(rows) then old(rows)[id := old(rows)[id].(paymentIntentID := piID)] else old(rows)
    {
      if id in rows {
        rows := rows[id := rows[id].(paymentIntentID := piID)];
      }
    }

    method SetStatus(id: string, status: Status)
      modifies this
      ensures rows == if id in old(rows) then old(rows)[id := old(rows)[id].(status := status)] else old(rows)
    {
      if id in rows {
        rows := rows[id := rows[id].(status := status)];
      }
    }

    method SetTracking(id: string, code: string, url: string, pdf: string, superfreteID: string, now: int)
      modifies this
      ensures rows == if id in old(rows)
                      then old(rows)[id := WithTracking(old(rows)[id], code, url, pdf, superfreteID, now)]
                      else old(rows)
      ensures id in old(rows) ==>
                rows[id] == old(rows)[id].(trackingCode := code, trackingURL := url, labelURL := pdf,
                                           superfreteID := superfreteID, lastError := None, attemptedAt := Some(now))
    {
      if id in rows {
        rows := rows[id := rows[id].(trackingCode := code, trackingURL := url, labelURL := pdf,
                                     superfreteID := superfreteID, lastError := None, attemptedAt := Some(now))];
      }
    }

    method MarkAwaitingShipment(id: string, superfreteID: string, now: int)
      modifies this
      ensures rows == if id in old(rows) then old(rows)[id := Awaiting(old(rows)[id], superfreteID, now)] else old(rows)
      ensures id in old(rows) ==>
                rows[id] == old(rows)[id].(status := AwaitingShipment, superfreteID := superfreteID,
                                           lastError := None, attemptedAt := Some(now))
    {
      if id in rows {
        rows := rows[id := rows[id].(status := AwaitingShipment, superfreteID := superfreteID, lastError := None,
                                     attemptedAt := Some(now))];
      }
    }

    method RecordTrackingFailure(id: string, stage: Stage, now: int)
      modifies this
      ensures rows == if id in old(rows) then old(rows)[id := WithFailure(old(rows)[id], stage, now)] else old(rows)
      ensures id in old(rows) ==>
                rows[id] == old(rows)[id].(attempts := old(rows)[id].attempts + 1, lastError := Some(stage),
                                           attemptedAt := Some(now))
    {
      if id in rows {
        rows := rows[id := rows[id].(attempts := rows[id].attempts + 1, lastError := Some(stage),
                                     attemptedAt := Some(now))];
      }
    }

    method AddItem(id: string, item: Item, bumpTotals: bool) returns (r: Result<int, StoreError>)
      modifies this
      ensures r == if item.quantity <= 0 then Err(BadQuantity) else if id !in old(rows) then Err(NotFound)
                   else Ok(MaxLine(old(rows)[id].items) + 1)
      ensures rows == if r.Ok? then old(rows)[id := WithItem(old(rows)[id], item, bumpTotals)] else old(rows)
      ensures r.Ok? ==>
                var o := old(rows)[id];
                var delta := if bumpTotals then Wrap(item.unitPriceCents * item.quantity) else 0;
                rows[id] == o.(items := o.items + [item.(lineNo := r.value)],
                               totalCents := o.totalCents + delta, amountCents := o.amountCents + delta)
    {
      if item.quantity <= 0 {
        return Err(BadQuantity);
      }
      if id !in rows {
        return Err(NotFound);
      }
      var o := rows[id];
      var nextLine := MaxLine(o.items) + 1;
      o := o.(items := o.items + [item.(lineNo := nextLine)]);
      if bumpTotals {
        var delta := Wrap(item.unitPriceCents * item.quantity);
        o := o.(totalCents := o.totalCents + delta, amountCents := o.amountCents + delta);
      }
      rows := rows[id := o];
      return Ok(nextLine);
    }

    method DeleteOrder(id: string) returns (r: Result<(), StoreError>)
      modifies this
      ensures r == if id in old(rows) then Ok(()) else Err(NotFound)
      ensures rows == old(rows) - {id}
    {
      r := if id in rows then Ok(()) else Err(NotFound);
      rows := rows - {id};
    }

    method ListPendingLabels(cutoff: int, maxAttempts: int, limit: int) returns (ids: seq<string>)
      ensures PendingList(rows, cutoff, maxAttempts, limit, ids)
      ensures Listing(rows, cutoff, maxAttempts, if limit <= 0 then 25 else limit, ids)
    {
      ids := PickPendingLabels(cutoff, maxAttempts, limit);
      PendingListIsListing(rows, cutoff, maxAttempts, limit, ids);
    }

    // The query as the database may run it: the first row, the next, and so on up to the limit.
    method PickPendingLabels(cutoff: int, maxAttempts: int, limit: int) returns (ids: seq<string>)
      ensures PendingList(rows, cutoff, maxAttempts, limit, ids)
    {
      hide PendingLabel, Precedes;
      var n := EffectiveLimit(limit);
      ids := [];
      var left := set id | id in rows && PendingLabel(rows[id], cutoff, maxAttempts);
      while |ids| < n && left != {}
        invariant |ids| <= n && Distinct(ids)
        invariant forall id | id in left :: id in rows && PendingLabel(rows[id], cutoff, maxAttempts) && id !in ids
        invariant forall i | 0 <= i < |ids| :: ids[i] in rows && PendingLabel(rows[ids[i]], cutoff, maxAttempts)
        invariant forall i, j | 0 <= i < j < |ids| :: Precedes(rows[ids[i]], rows[ids[j]])
        invariant forall i, id | 0 <= i < |ids| && id in left :: Precedes(rows[ids[i]], rows[id])
        invariant forall id | id in rows && PendingLabel(rows[id], cutoff, maxAttempts) :: id in left || id in ids
        decreases left
      {
        var first := FirstOf(left);
        ids := ids + [first];
        left := left - {first};
      }
    }

    // A row of the set that precedes all others.
    method FirstOf(from: set<string>) returns (first: string)
      requires from != {} && forall id | id in from :: id in rows
      ensures first in from && forall id | id in from :: Precedes(rows[first], rows[id])
    {
      first :| first in from;
      var todo := from - {first};
      while todo != {}
        invariant first in from && todo <= from
        invariant forall id | id in from && id !in todo :: Precedes(rows[first], rows[id])
        decreases todo
      {
        var id :| id in todo;
        if !Precedes(rows[first], rows[id]) {
          first := id;
        }
        todo := todo - {id};
      }
    }
  }

  // SELECT ... WHERE payment_intent_id = ? LIMIT 1: any matching row.
  ghost predicate FoundByIntent(t: Table, piID: string, r: Option<string>) {
    if r.Some? then piID != "" && r.value in t && t[r.value].paymentIntentID == piID
    else piID == "" || forall id | id in t :: t[id].paymentIntentID != piID
  }

  // ----- Line items -----

  function Refs(items: seq<Item>): (refs: seq<CartRef>)
    ensures |refs| == |items|
  {
    seq(|items|, i requires 0 <= i < |items| => CartRef(items[i].productID, items[i].quantity))
  }

  function StockLines(items: seq<Item>): (lines: seq<Stock.StockLine>)
    ensures |lines| == |items|
  {
    seq(|items|, i requires 0 <= i < |items| => Stock.StockLine(items[i].productID, items[i].size, items[i].quantity))
  }

  // What the stored lines are worth at their stored prices, each as the source computes it.
  function ItemsWorth(items: seq<Item>): int {
    if items == [] then 0 else ItemsWorth(items[..|items| - 1]) + LineWorth(items[|items| - 1])
  }

  // What a line and the lines are worth without any wrapping around.
  function LineExact(item: Item): int {
    item.unitPriceCents * item.quantity
  }

  function ExactWorth(items: seq<Item>): int {
    if items == [] then 0 else ExactWorth(items[..|items| - 1]) + LineExact(items[|items| - 1])
  }

  predicate Fits(item: Item) {
    InInt64(LineExact(item))
  }

  lemma LineWorthBelow(item: Item)
    requires 0 <= item.unitPriceCents && 0 < item.quantity
    ensures if Fits(item) then LineWorth(item) == LineExact(item) else LineWorth(item) < LineExact(item)
  {
    WrapExactly(LineExact(item));
    assert 0 <= LineExact(item);
  }

  /** The computed worth of the lines is their true worth exactly when no single line overflows; it
      is never more. */
  lemma {:induction false} WorthIsExact(items: seq<Item>)
    requires forall i | 0 <= i < |items| :: 0 <= items[i].unitPriceCents && 0 < items[i].quantity
    ensures ItemsWorth(items) <= ExactWorth(items)
    ensures ItemsWorth(items) == ExactWorth(items) <==> forall i | 0 <= i < |items| :: Fits(items[i])
  {
    hide LineWorth, LineExact, Fits;
    if items != [] {
      var n := |items| - 1;
      WorthIsExact(items[..n]);
      LineWorthBelow(items[n]);
      assert (forall i | 0 <= i < |items| :: Fits(items[i]))
        <==> Fits(items[n]) && forall i | 0 <= i < n :: Fits(items[..n][i]);
    }
  }

  // Line numbers are 1, 2, 3, ...
  predicate LinesInOrder(items: seq<Item>) {
    forall i | 0 <= i < |items| :: items[i].lineNo == i + 1
  }

  // The highest line number, 0 for no lines.
  lemma {:induction false} MaxLineIsHighest(items: seq<Item>)
    ensures forall i | 0 <= i < |items| :: items[i].lineNo <= MaxLine(items)
    ensures if items == [] then MaxLine(items) == 0
            else exists i | 0 <= i < |items| :: items[i].lineNo == MaxLine(items)
  {
    if items != [] {
      var n := |items| - 1;
      var init := items[..n];
      MaxLineIsHighest(init);
      assert forall i | 0 <= i < n :: items[i] == init[i];
      if i :| 0 <= i < n && init[i].lineNo == MaxLine(init) {
        assert items[i].lineNo == MaxLine(init);
      }
      assert items[n].lineNo <= MaxLine(items);
    }
  }

  lemma {:induction false} MaxLineInOrder(items: seq<Item>)
    requires LinesInOrder(items)
    ensures MaxLine(items) == |items|
  {
    if items != [] {
      MaxLineInOrder(items[..|items| - 1]);
    }
  }

  /** Adding an item keeps the line numbers consecutive and the money ledger balanced: the worth of
      the lines grows by exactly what the totals do. */
  lemma AddedItem(o: Order, item: Item, bumpTotals: bool)
    requires LinesInOrder(o.items)
    requires bumpTotals || item.unitPriceCents == 0
    ensures var o' := WithItem(o, item, bumpTotals);
            && LinesInOrder(o'.items) && o.items <= o'.items && o'.items[|o.items|] == item.(lineNo := |o.items| + 1)
            && ItemsWorth(o'.items) - ItemsWorth(o.items) == o'.totalCents - o.totalCents
            && o'.totalCents - o.totalCents == o'.amountCents - o.amountCents
  {
    MaxLineInOrder(o.items);
    var o' := WithItem(o, item, bumpTotals);
    assert o'.items[..|o.items|] == o.items;
    WrapExactly(0);
  }

  lemma {:induction false} NumberedWorth(items: seq<Item>)
    ensures ItemsWorth(Numbered(items)) == ItemsWorth(items) && LinesInOrder(Numbered(items))
    ensures Refs(Numbered(items)) == Refs(items)
  {
    if items != [] {
      var n := |items| - 1;
      NumberedWorth(items[..n]);
      assert Numbered(items)[..n] == Numbered(items[..n]);
    }
  }
}
