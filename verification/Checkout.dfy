/** Checkout (backend/main.go): pricing a cart against the catalog, applying a coupon and building
    the order row. The customer's contact fields are validated elsewhere and are not part of the
    model. Prices add up in Go's 64-bit arithmetic. */
module Checkout {
  import opened Wrappers
  import opened Int64
  import opened Packages
  import opened Stock
  import opened Orders
  import opened Coupons

  datatype CartItem = CartItem(productID: string, quantity: int, size: string, color: string)

  datatype Shipping = Shipping(serviceID: int, priceCents: int)

  // What looking the requested coupon up gave.
  datatype CouponRequest = NoCoupon | BadCode | UnknownCode | Found(coupon: Coupon)

  datatype Request = Request(items: seq<CartItem>, method_: PaymentMethod, shipping: Option<Shipping>,
                             coupon: CouponRequest)

  datatype Refusal =
    | BadItemCount | BadLineQuantity | UnknownProduct | SizeNotOffered | SizeSoldOut | OutOfStock
    | BadShippingPrice | BadCouponCode | CouponNotFound | CouponRefused(reason: CouponError)

  // ----- Pricing -----

  function UnitPrice(p: Product, method_: PaymentMethod): int {
    if method_ == Pix then p.pixPriceCents else p.priceCents
  }

  function LineRefusal(products: Products, it: CartItem): (r: Option<Refusal>)
    ensures r.None? ==> it.productID in products
  {
    if it.quantity <= 0 || it.quantity > 20 then Some(BadLineQuantity)
    else if it.productID !in products then Some(UnknownProduct)
    else
      var p := products[it.productID];
      if it.size != "" && |p.sizes| > 0 && it.size !in p.sizes then Some(SizeNotOffered)
      else if !Legacy(p) then (if Listed(p, it.size) < it.quantity then Some(SizeSoldOut) else None)
      else if p.stock < it.quantity then Some(OutOfStock)
      else None
  }

  function LineItem(products: Products, method_: PaymentMethod, it: CartItem): Item
    requires it.productID in products
  {
    var p := products[it.productID];
    Item(0, it.productID, p.name, it.size, it.color, it.quantity, UnitPrice(p, method_))
  }

  /** The priced lines and their total, or the refusal of the first bad line. */
  function Priced(products: Products, method_: PaymentMethod, items: seq<CartItem>): Result<(seq<Item>, int), Refusal> {
    if items == [] then Ok(([], 0))
    else
      var n := |items| - 1;
      var prev := Priced(products, method_, items[..n]);
      if prev.Err? then prev
      else
        var refusal := LineRefusal(products, items[n]);
        if refusal.Some? then Err(refusal.value)
        else
          var line := LineItem(products, method_, items[n]);
          Ok((prev.value.0 + [line], Wrap(prev.value.1 + LineWorth(line))))
  }

  lemma {:induction false} PricedStops(products: Products, method_: PaymentMethod, items: seq<CartItem>, i: nat)
    requires i <= |items| && Priced(products, method_, items[..i]).Err?
    ensures Priced(products, method_, items) == Priced(products, method_, items[..i])
  {
    if i < |items| {
      assert items[..|items| - 1][..i] == items[..i];
      PricedStops(products, method_, items[..|items| - 1], i);
    } else {
      assert items[..i] == items;
    }
  }

  lemma NothingPriced(products: Products, method_: PaymentMethod)
    ensures Priced(products, method_, []) == Ok(([], 0))
  {
  }

  lemma PricedNext(products: Products, method_: PaymentMethod, items: seq<CartItem>, i: nat)
    requires i < |items| && Priced(products, method_, items[..i]).Ok?
    ensures var prev := Priced(products, method_, items[..i]).value; var refusal := LineRefusal(products, items[i]);
            Priced(products, method_, items[..i + 1]) ==
              if refusal.Some? then Err(refusal.value)
              else
                var line := LineItem(products, method_, items[i]);
                Ok((prev.0 + [line], Wrap(prev.1 + LineWorth(line))))
  {
    hide LineRefusal, LineItem, LineWorth, Wrap;
    assert items[..i + 1][..i] == items[..i];
  }

  method PriceCart(products: Products, method_: PaymentMethod, items: seq<CartItem>)
    returns (r: Result<(seq<Item>, int), Refusal>)
    ensures r == Priced(products, method_, items)
  {
    hide Priced, LineRefusal, Wrap;
    var lines: seq<Item>, total := [], 0;
    NothingPriced(products, method_);
    for i := 0 to |items|
      invariant Priced(products, method_, items[..i]) == Ok((lines, total))
    {
      var refusal := CheckLine(products, items[i]);
      PricedNext(products, method_, items, i);
      if refusal.Some? {
        PricedStops(products, method_, items, i + 1);
        return Err(refusal.value);
      }
      var p := products[items[i].productID];
      var unit := p.priceCents;
      if method_ == Pix {
        unit := p.pixPriceCents;
      }
      total := Wrap(total + Wrap(unit * items[i].quantity));
      lines := lines + [Item(0, items[i].productID, p.name, items[i].size, items[i].color, items[i].quantity, unit)];
    }
    assert items[..|items|] == items;
    return Ok((lines, total));
  }

  // The checks of one line of the loop, in the order the source makes them.
  method CheckLine(products: Products, it: CartItem) returns (r: Option<Refusal>)
    ensures r == LineRefusal(products, it)
  {
    if it.quantity <= 0 || it.quantity > 20 {
      return Some(BadLineQuantity);
    }
    if it.productID !in products {
      return Some(UnknownProduct);
    }
    var p := products[it.productID];
    if it.size != "" && |p.sizes| > 0 {
      var sizeOffered := false;
      for i := 0 to |p.sizes|
        invariant sizeOffered <==> it.size in p.sizes[..i]
      {
        if p.sizes[i] == it.size {
          sizeOffered := true;
          break;
        }
      }
      if !sizeOffered {
        return Some(SizeNotOffered);
      }
    }
    if |p.stockBySize| > 0 {
      if (if it.size in p.stockBySize then p.stockBySize[it.size] else 0) < it.quantity {
        return Some(SizeSoldOut);
      }
    } else if p.stock < it.quantity {
      return Some(OutOfStock);
    }
    return None;
  }

  // ----- What a cart must be, and what it becomes -----

  // The catalog can serve the line: the product exists, the size is one it comes in, and there is enough.
  predicate Servable(products: Products, it: CartItem) {
    && 1 <= it.quantity <= 20 && it.productID in products
    && var p := products[it.productID];
    && (it.size != "" && p.sizes != [] ==> it.size in p.sizes)
    && (if p.stockBySize == map[] then it.quantity <= p.stock
        else it.size in p.stockBySize && it.quantity <= p.stockBySize[it.size])
  }

  /** A line is refused exactly when the catalog cannot serve it, for the first reason in this order. */
  lemma RefusedExactly(products: Products, it: CartItem)
    ensures var refusal := LineRefusal(products, it);
            && (refusal.None? <==> Servable(products, it))
            && (refusal == Some(BadLineQuantity) <==> !(1 <= it.quantity <= 20))
            && (1 <= it.quantity <= 20 ==>
                  && (refusal == Some(UnknownProduct) <==> it.productID !in products)
                  && (it.productID in products ==>
                        var p := products[it.productID];
                        var foreign := it.size != "" && p.sizes != [] && it.size !in p.sizes;
                        && (refusal == Some(SizeNotOffered) <==> foreign)
                        && (!foreign && p.stockBySize != map[] ==>
                              (refusal == Some(SizeSoldOut)
                               <==> it.size !in p.stockBySize || p.stockBySize[it.size] < it.quantity))
                        && (!foreign && p.stockBySize == map[] ==>
                              (refusal == Some(OutOfStock) <==> p.stock < it.quantity))))
  {
  }

  /** A cart is priced exactly when every line can be served, and refused for its first line that cannot. */
  lemma {:induction false} PricedIfServable(products: Products, method_: PaymentMethod, items: seq<CartItem>)
    ensures Priced(products, method_, items).Ok? <==> forall i | 0 <= i < |items| :: Servable(products, items[i])
    ensures forall i | 0 <= i < |items| && LineRefusal(products, items[i]).Some?
                       && (forall j | 0 <= j < i :: Servable(products, items[j])) ::
              Priced(products, method_, items) == Err(LineRefusal(products, items[i]).value)
  {
    hide LineRefusal, Servable, LineWorth, LineItem, Wrap;
    if items != [] {
      var n := |items| - 1;
      PricedIfServable(products, method_, items[..n]);
      RefusedExactly(products, items[n]);
      assert forall i | 0 <= i < n :: items[..n][i] == items[i];
    }
  }

  /** Each line of an accepted cart keeps what the customer chose, under the catalog's name, at the
      catalog's Pix price for Pix and its full price otherwise. */
  lemma {:induction false} PricedLines(products: Products, method_: PaymentMethod, items: seq<CartItem>)
    requires Priced(products, method_, items).Ok?
    ensures var lines := Priced(products, method_, items).value.0;
            && |lines| == |items|
            && forall i | 0 <= i < |items| ::
                 && items[i].productID in products
                 && lines[i].productID == items[i].productID && lines[i].size == items[i].size
                 && lines[i].color == items[i].color && lines[i].quantity == items[i].quantity
                 && lines[i].productName == products[items[i].productID].name
                 && lines[i].unitPriceCents == match method_
                      case Pix => products[items[i].productID].pixPriceCents
                      case Card => products[items[i].productID].priceCents
  {
    hide LineRefusal, LineWorth, Wrap;
    if items != [] {
      PricedLines(products, method_, items[..|items| - 1]);
    }
  }

  // ----- The order -----

  function Quote(req: Request): (int, int) {
    if req.shipping.Some? then (req.shipping.value.priceCents, req.shipping.value.serviceID) else (0, 0)
  }

  // The charged subtotal, the charged shipping, the coupon code kept and the total discount.
  function Charge(coupon: CouponRequest, total: int, shipping: int, now: int)
    : Result<(int, int, string, int), Refusal>
  {
    match coupon
    case NoCoupon => Ok((total, shipping, "", 0))
    case BadCode => Err(BadCouponCode)
    case UnknownCode => Err(CouponNotFound)
    case Found(c) =>
      var refused := Eligibility(c, now);
      if refused.Some? then Err(CouponRefused(refused.value))
      else
        match Discounted(c, total, shipping)
        case Err(e) => Err(CouponRefused(e))
        case Ok(s) => Ok((s.newSubtotal, s.newShipping, c.code, s.totalDiscount))
  }

  function Placed(products: Products, req: Request, id: string, now: int): Result<Order, Refusal> {
    if |req.items| == 0 || |req.items| > 50 then Err(BadItemCount) else
    var priced := Priced(products, req.method_, req.items);
    if priced.Err? then Err(priced.error) else
    if Quote(req).0 < 0 || Quote(req).0 > 500_000 then Err(BadShippingPrice) else
    var charge := Charge(req.coupon, priced.value.1, Quote(req).0, now);
    if charge.Err? then Err(charge.error) else
    var (subtotal, shipping, code, discount) := charge.value;
    Ok(Order(id, req.method_, PendingPayment, subtotal, shipping, Wrap(subtotal + shipping), discount, code,
             Quote(req).1, "", "", "", "", "", 0, None, None, now, priced.value.0))
  }

  method PlaceOrder(products: Products, req: Request, id: string, now: int) returns (r: Result<Order, Refusal>)
    ensures r == Placed(products, req, id, now)
  {
    hide Discounted, Priced;
    if |req.items| == 0 || |req.items| > 50 {
      return Err(BadItemCount);
    }
    var priced := PriceCart(products, req.method_, req.items);
    if priced.Err? {
      return Err(priced.error);
    }
    var (items, total) := priced.value;
    var shippingCents, serviceID := 0, 0;
    if req.shipping.Some? {
      if req.shipping.value.priceCents < 0 || req.shipping.value.priceCents > 500_000 {
        return Err(BadShippingPrice);
      }
      shippingCents := req.shipping.value.priceCents;
      serviceID := req.shipping.value.serviceID;
    }
    TotalFits(products, req.method_, req.items);
    var charged := ChargeCart(req.coupon, total, shippingCents, now);
    if charged.Err? {
      return Err(charged.error);
    }
    var (subtotal, shipping, code, discount) := charged.value;
    var amount := Wrap(subtotal + shipping);
    return Ok(Order(id, req.method_, PendingPayment, subtotal, shipping, amount, discount, code, serviceID,
                    "", "", "", "", "", 0, None, None, now, items));
  }

  lemma TotalFits(products: Products, method_: PaymentMethod, items: seq<CartItem>)
    ensures Priced(products, method_, items).Ok? ==> InInt64(Priced(products, method_, items).value.1)
  {
  }

  method ChargeCart(coupon: CouponRequest, total: int, shipping: int, now: int)
    returns (r: Result<(int, int, string, int), Refusal>)
    requires InInt64(total)
    ensures r == Charge(coupon, total, shipping, now)
  {
    hide Discounted;
    var finalSubtotal, finalShipping, appliedCode, discount := total, shipping, "", 0;
    match coupon {
      case NoCoupon =>
      case BadCode => return Err(BadCouponCode);
      case UnknownCode => return Err(CouponNotFound);
      case Found(c) =>
        var refused := Eligibility(c, now);
        if refused.Some? {
          return Err(CouponRefused(refused.value));
        }
        var summary := ApplyCoupon(c, total, shipping);
        if summary.Err? {
          return Err(CouponRefused(summary.error));
        }
        finalSubtotal, finalShipping := summary.value.newSubtotal, summary.value.newShipping;
        appliedCode, discount := c.code, summary.value.totalDiscount;
    }
    return Ok((finalSubtotal, finalShipping, appliedCode, discount));
  }

  // ----- What checkout guarantees about an order -----

  const MAX_PRICE := 10_000_000

  // validateProduct: what the catalog accepts.
  predicate ValidProduct(p: Product) {
    && p.id != "" && 0 < p.priceCents <= MAX_PRICE && 0 < p.pixPriceCents <= p.priceCents
    && 0 <= p.stock <= MAX_STOCK && forall s | s in p.stockBySize :: 0 <= p.stockBySize[s] <= MAX_STOCK
  }

  predicate ValidCatalog(products: Products) {
    forall id | id in products :: products[id].id == id && ValidProduct(products[id])
  }

  // A stored line the packaging can start from.
  predicate GoodLine(it: Item) {
    it.productID != "" && 0 < it.quantity && 0 <= it.unitPriceCents
  }

  // What a line can be worth at most, and a total of n lines.
  const MAX_LINE := 200_000_000

  predicate LinesTotal(total: int, n: int) {
    0 <= total <= n * MAX_LINE
  }

  lemma LineBound(products: Products, method_: PaymentMethod, it: CartItem)
    requires ValidCatalog(products) && LineRefusal(products, it).None?
    ensures it.productID in products
    ensures var line := LineItem(products, method_, it);
            && GoodLine(line) && line.quantity <= 20 && line.unitPriceCents <= MAX_PRICE
            && 0 <= LineExact(line) == LineWorth(line) <= MAX_LINE && Fits(line)
  {
    assert ValidProduct(products[it.productID]);
    var line := LineItem(products, method_, it);
    ProductBound(line.unitPriceCents, MAX_PRICE, line.quantity, 20);
    LineWorthBelow(line);
  }

  lemma OneMoreLine(total: int, n: int, worth: int)
    requires LinesTotal(total, n) && 0 <= n < 50 && 0 <= worth <= MAX_LINE
    ensures LinesTotal(total + worth, n + 1) && Wrap(total + worth) == total + worth
  {
    WrapExactly(total + worth);
  }

  /** Pricing never wraps: the total is the exact worth of the lines. */
  lemma {:induction false} PricedExactly(products: Products, method_: PaymentMethod, items: seq<CartItem>)
    requires ValidCatalog(products) && |items| <= 50 && Priced(products, method_, items).Ok?
    ensures var (lines, total) := Priced(products, method_, items).value;
            && |lines| == |items| && total == ExactWorth(lines) && LinesTotal(total, |items|)
            && (forall i | 0 <= i < |lines| :: GoodLine(lines[i]) && lines[i].quantity <= 20 && Fits(lines[i]))
  {
    hide Wrap, LineRefusal, ValidCatalog, GoodLine, LinesTotal, LineItem, LineWorth, LineExact, Fits;
    if items == [] {
      assert LinesTotal(0, 0) by { EmptyTotal(); }
    } else {
      var n := |items| - 1;
      PricedExactly(products, method_, items[..n]);
      LineBound(products, method_, items[n]);
      var line := LineItem(products, method_, items[n]);
      var (prev, total) := Priced(products, method_, items[..n]).value;
      OneMoreLine(total, n, LineExact(line));
      assert (prev + [line])[..n] == prev;
    }
  }

  lemma EmptyTotal()
    ensures LinesTotal(0, 0)
  {
  }

  lemma TotalAdmissible(total: int, n: int, shipping: int)
    requires LinesTotal(total, n) && 0 <= n <= 50 && 0 <= shipping <= MAX_SHIPPING
    ensures Admissible(total, shipping)
  {
  }

  // The coupon table only holds validated coupons.
  predicate ValidRequest(req: Request) {
    req.coupon.Found? ==> ValidCoupon(req.coupon.coupon)
  }

  /** An accepted order charges what its lines are worth plus the quoted shipping, less the discount;
      every amount is non-negative and its cart can be packed. */
  lemma PlacedOrderBalances(products: Products, req: Request, id: string, now: int)
    requires ValidCatalog(products) && ValidRequest(req) && Placed(products, req, id, now).Ok?
    ensures var o := Placed(products, req, id, now).value;
            && o.amountCents == o.totalCents + o.shippingCents
            && o.totalCents + o.shippingCents + o.discountCents == ItemsWorth(o.items) + Quote(req).0
            && ItemsWorth(o.items) == ExactWorth(o.items)
            && 0 <= o.totalCents && 0 <= o.shippingCents && 0 <= o.discountCents
            && o.items != [] && (forall i | 0 <= i < |o.items| :: GoodLine(o.items[i]))
            && Packed(Refs(o.items)).Ok?
  {
    hide Placed, Priced, Charge, Packed, Wrap, ValidCatalog, ItemsWorth, ExactWorth, LinesTotal, Fits;
    PlacedParts(products, req, id, now);
    PricedExactly(products, req.method_, req.items);
    var (lines, total) := Priced(products, req.method_, req.items).value;
    TotalAdmissible(total, |req.items|, Quote(req).0);
    WorthIsExact(lines);
    ChargeBalances(req.coupon, total, Quote(req).0, now);
    var (subtotal, shipping, code, discount) := Charge(req.coupon, total, Quote(req).0, now).value;
    WrapExactly(subtotal + shipping);
    PackableExactly(lines);
  }

  lemma PlacedParts(products: Products, req: Request, id: string, now: int)
    requires Placed(products, req, id, now).Ok?
    ensures 1 <= |req.items| <= 50 && 0 <= Quote(req).0 <= 500_000
    ensures Priced(products, req.method_, req.items).Ok?
    ensures Charge(req.coupon, Priced(products, req.method_, req.items).value.1, Quote(req).0, now).Ok?
    ensures var o := Placed(products, req, id, now).value;
            var (lines, total) := Priced(products, req.method_, req.items).value;
            var charge := Charge(req.coupon, total, Quote(req).0, now).value;
            && o.items == lines && o.totalCents == charge.0 && o.shippingCents == charge.1
            && o.discountCents == charge.3 && o.amountCents == Wrap(charge.0 + charge.1)
  {
    hide Priced, Charge, Wrap;
  }

  lemma ChargeBalances(coupon: CouponRequest, total: int, shipping: int, now: int)
    requires coupon.Found? ==> ValidCoupon(coupon.coupon)
    requires Admissible(total, shipping) && Charge(coupon, total, shipping, now).Ok?
    ensures var (subtotal, charged, code, discount) := Charge(coupon, total, shipping, now).value;
            && 0 <= subtotal && 0 <= charged && 0 <= discount && subtotal + charged + discount == total + shipping
  {
    hide Discounted;
    if coupon.Found? {
      CouponConserves(coupon.coupon, total, shipping);
    }
  }

  // The coupon asked for, if any, can be used: it exists, is active, within its window and not used up, and
  // the cart reaches its minimum.
  predicate Usable(coupon: CouponRequest, total: int, now: int) {
    match coupon
    case NoCoupon => true
    case Found(c) =>
      && c.active && (c.startsAt.Some? ==> c.startsAt.value <= now) && (c.expiresAt.Some? ==> now <= c.expiresAt.value)
      && (0 < c.maxUses ==> c.usedCount < c.maxUses) && c.minSubtotalCents <= total
    case _ => false
  }

  /** Checkout accepts exactly the carts of 1 to 50 lines that can all be served, with a shipping price up to
      5000 reais and, if one is asked for, a coupon that can be used; and the order it places is pending,
      unpaid, unlabelled, and carries what was asked for. */
  lemma PlacedExactly(products: Products, req: Request, id: string, now: int)
    requires ValidRequest(req)
    ensures Placed(products, req, id, now).Ok?
       <==> && 1 <= |req.items| <= 50 && (forall i | 0 <= i < |req.items| :: Servable(products, req.items[i]))
            && (req.shipping.Some? ==> 0 <= req.shipping.value.priceCents <= 500_000)
            && Priced(products, req.method_, req.items).Ok?
            && Usable(req.coupon, Priced(products, req.method_, req.items).value.1, now)
    ensures Placed(products, req, id, now).Ok? ==>
              var o := Placed(products, req, id, now).value;
              && o.id == id && o.method_ == req.method_ && o.status == PendingPayment && o.createdAt == now
              && o.items == Priced(products, req.method_, req.items).value.0
              && (req.coupon.Found? ==>
                    var total, quoted := Priced(products, req.method_, req.items).value.1, Quote(req).0;
                    && Discounted(req.coupon.coupon, total, quoted).Ok?
                    && var s := Discounted(req.coupon.coupon, total, quoted).value;
                    o.totalCents == s.newSubtotal && o.shippingCents == s.newShipping
                    && o.discountCents == s.totalDiscount)
              && (req.coupon == NoCoupon ==>
                    && o.totalCents == Priced(products, req.method_, req.items).value.1 && o.discountCents == 0
                    && o.shippingCents == (if req.shipping.Some? then req.shipping.value.priceCents else 0))
              && Quote(req).0 == (if req.shipping.Some? then req.shipping.value.priceCents else 0)
              && o.couponCode == (if req.coupon.Found? then req.coupon.coupon.code else "")
              && o.shippingSvcID == (if req.shipping.Some? then req.shipping.value.serviceID else 0)
              && o.paymentIntentID == o.trackingCode == o.trackingURL == o.labelURL == o.superfreteID == ""
              && o.attempts == 0 && o.lastError.None? && o.attemptedAt.None?
  {
    hide Priced, Servable, Wrap, Quo;
    PricedIfServable(products, req.method_, req.items);
  }

  // ----- Around a coupon's minimum -----

  // What a cart costs the customer, or why checkout refuses it.
  function Pays(coupon: CouponRequest, total: int, shipping: int, now: int): Result<int, Refusal> {
    var charge := Charge(coupon, total, shipping, now);
    if charge.Err? then Err(charge.error) else Ok(charge.value.0 + charge.value.1)
  }

  // With the coupon the larger cart costs at least what the smaller one does without it.
  predicate HoldsUp(c: Coupon, low: int, high: int, shipping: int, now: int) {
    var dear := Pays(Found(c), high, shipping, now);
    dear.Ok? && low + shipping <= dear.value && Pays(NoCoupon, low, shipping, now) == Ok(low + shipping)
  }

  /** Below its minimum a coupon is refused. Filling a cart up to the minimum to use the coupon never
      costs less than the smaller cart without it exactly when the coupon takes at most one cent off a
      cart that just meets the minimum. */
  lemma FillingUpUndercutsExactly(c: Coupon, shipping: int, now: int)
    requires ValidCoupon(c) && Eligibility(c, now).None? && 0 < c.minSubtotalCents <= MAX_SUBTOTAL
    requires Admissible(0, shipping)
    ensures forall low | 0 <= low < c.minSubtotalCents ::
              Pays(Found(c), low, shipping, now) == Err(CouponRefused(BelowMinimum(c.minSubtotalCents)))
    ensures Discounted(c, c.minSubtotalCents, shipping).Ok?
    ensures (forall low, high | 0 <= low < c.minSubtotalCents <= high <= MAX_SUBTOTAL ::
               HoldsUp(c, low, high, shipping, now))
       <==> Discounted(c, c.minSubtotalCents, shipping).value.totalDiscount <= 1
  {
    hide Discounted, Wrap, Quo;
    var min := c.minSubtotalCents;
    forall low | 0 <= low < min
      ensures Pays(Found(c), low, shipping, now) == Err(CouponRefused(BelowMinimum(min)))
    {
      BelowIsRefused(c, low, shipping);
    }
    CouponConserves(c, min, shipping);
    var off := Discounted(c, min, shipping).value.totalDiscount;
    if off <= 1 {
      forall low, high | 0 <= low < min <= high <= MAX_SUBTOTAL
        ensures HoldsUp(c, low, high, shipping, now)
      {
        CouponConserves(c, high, shipping);
        ChargeIsMonotone(c, min, high, shipping);
      }
    } else {
      assert !HoldsUp(c, min - 1, min, shipping, now);
    }
  }

  lemma BelowIsRefused(c: Coupon, low: int, shipping: int)
    requires low < c.minSubtotalCents
    ensures Discounted(c, low, shipping) == Err(BelowMinimum(c.minSubtotalCents))
  {
  }

  /** The packaging accepts stored lines exactly when there are at most 50, of at most 20 units each. */
  lemma PackableExactly(items: seq<Item>)
    requires items != [] && forall i | 0 <= i < |items| :: GoodLine(items[i])
    ensures Packed(Refs(items)).Ok? <==> |items| <= 50 && forall i | 0 <= i < |items| :: items[i].quantity <= 20
  {
    NoError(Refs(items));
    hide FirstError;
    var refs := Refs(items);
    forall i | 0 <= i < |items| ensures LineError(refs[i]).None? <==> items[i].quantity <= 20 {
      assert GoodLine(items[i]);
    }
    if FirstError(refs).None? {
      forall i | 0 <= i < |items| ensures items[i].quantity <= 20 {
        assert LineError(refs[i]).None?;
      }
    }
  }
}
