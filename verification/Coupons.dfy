/** Discount coupons (backend/coupons.go), in Go's 64-bit arithmetic. Instants are integers; code
    normalization (trimming, upper-casing, the code pattern) is an arbitrary function that returns
    the empty string for a bad code. */
module Coupons {
  import opened Wrappers
  import opened Int64

  datatype Kind = Percent | Amount | FreeShipping | Unknown(name: string)

  datatype Coupon = Coupon(code: string, kind: Kind, value: int, minSubtotalCents: int, maxUses: int,
                           usedCount: int, startsAt: Option<int>, expiresAt: Option<int>, active: bool,
                           note: string)

  datatype Summary = Summary(itemDiscount: int, shippingDiscount: int, totalDiscount: int,
                             newSubtotal: int, newShipping: int, newAmount: int)

  datatype CouponError =
    | InvalidCode | BadPercent | BadAmount | InvalidKind | NegativeMinimum | NegativeMaxUses
    | WindowReversed | NoteTooLong
    | Inactive | NotYetValid | PastExpiry | UsedUp
    | BelowMinimum(minSubtotalCents: int) | UnsupportedKind

  // ----- Validation -----

  class Draft {
    var coupon: Coupon

    constructor (coupon: Coupon)
      ensures this.coupon == coupon
    {
      this.coupon := coupon;
    }

    /** validateCouponFields: checks the fields in order and overwrites the code and, for free
        shipping, the value. */
    method Validate(normalize: string -> string) returns (r: Result<(), CouponError>)
      modifies this
      ensures (coupon, r) == Validated(normalize, old(coupon))
    {
      if normalize(coupon.code) == "" {
        return Err(InvalidCode);
      }
      coupon := coupon.(code := normalize(coupon.code));
      match coupon.kind {
        case Percent =>
          if coupon.value <= 0 || coupon.value > 100 {
            return Err(BadPercent);
          }
        case Amount =>
          if coupon.value <= 0 || coupon.value > 1_000_000 {
            return Err(BadAmount);
          }
        case FreeShipping =>
          coupon := coupon.(value := 0);
        case Unknown(_) =>
          return Err(InvalidKind);
      }
      if coupon.minSubtotalCents < 0 {
        return Err(NegativeMinimum);
      }
      if coupon.maxUses < 0 {
        return Err(NegativeMaxUses);
      }
      if coupon.startsAt.Some? && coupon.expiresAt.Some? && coupon.expiresAt.value < coupon.startsAt.value {
        return Err(WindowReversed);
      }
      if |coupon.note| > 240 {
        return Err(NoteTooLong);
      }
      return Ok(());
    }
  }

  function Validated(normalize: string -> string, c: Coupon): (Coupon, Result<(), CouponError>) {
    if normalize(c.code) == "" then (c, Err(InvalidCode)) else
    var d := c.(code := normalize(c.code));
    if d.kind.Percent? && !(0 < d.value <= 100) then (d, Err(BadPercent)) else
    if d.kind.Amount? && !(0 < d.value <= 1_000_000) then (d, Err(BadAmount)) else
    if d.kind.Unknown? then (d, Err(InvalidKind)) else
    var e := if d.kind.FreeShipping? then d.(value := 0) else d;
    if e.minSubtotalCents < 0 then (e, Err(NegativeMinimum)) else
    if e.maxUses < 0 then (e, Err(NegativeMaxUses)) else
    if e.startsAt.Some? && e.expiresAt.Some? && e.expiresAt.value < e.startsAt.value then (e, Err(WindowReversed)) else
    if |e.note| > 240 then (e, Err(NoteTooLong)) else (e, Ok(()))
  }

  // A coupon the store can hold.
  predicate ValidCoupon(c: Coupon) {
    match c.kind
    case Percent => 0 < c.value <= 100
    case Amount => 0 < c.value <= 1_000_000
    case FreeShipping => true
    case Unknown(_) => false
  }

  /** Validation succeeds only on usable coupons, and validating again changes nothing more. */
  lemma ValidatedIsValid(normalize: string -> string, c: Coupon)
    requires forall s :: normalize(normalize(s)) == normalize(s)
    requires Validated(normalize, c).1.Ok?
    ensures ValidCoupon(Validated(normalize, c).0) && 0 <= Validated(normalize, c).0.minSubtotalCents
    ensures Validated(normalize, Validated(normalize, c).0) == Validated(normalize, c)
  {
  }

  /** A draft is accepted exactly when its code normalizes and its value, minimum, limit, window and note
      are in range; its code is then normalized, the value of a free-shipping coupon is cleared, and nothing
      else changes. */
  lemma ValidatedExactly(normalize: string -> string, c: Coupon)
    ensures Validated(normalize, c).1.Ok?
       <==> && normalize(c.code) != "" && 0 <= c.minSubtotalCents && 0 <= c.maxUses && |c.note| <= 240
            && (c.kind == Percent || c.kind == Amount || c.kind == FreeShipping)
            && (c.kind == Percent ==> 1 <= c.value <= 100) && (c.kind == Amount ==> 1 <= c.value <= 1_000_000)
            && (c.startsAt.Some? && c.expiresAt.Some? ==> c.startsAt.value <= c.expiresAt.value)
    ensures Validated(normalize, c).1.Ok? ==>
              Validated(normalize, c).0
              == c.(code := normalize(c.code), value := if c.kind == FreeShipping then 0 else c.value)
  {
  }

  // ----- Eligibility -----

  function Eligibility(c: Coupon, now: int): Option<CouponError> {
    if !c.active then Some(Inactive)
    else if c.startsAt.Some? && now < c.startsAt.value then Some(NotYetValid)
    else if c.expiresAt.Some? && c.expiresAt.value < now then Some(PastExpiry)
    else if c.maxUses > 0 && c.usedCount >= c.maxUses then Some(UsedUp)
    else None
  }

  /** A coupon can be used exactly when it is active, its window is open and its uses are not spent; the
      first of these that fails is the reason given. */
  lemma EligibleExactly(c: Coupon, now: int)
    ensures var early := c.startsAt.Some? && now < c.startsAt.value;
            var late := c.expiresAt.Some? && c.expiresAt.value < now;
            var spent := 0 < c.maxUses <= c.usedCount;
            && (Eligibility(c, now).None? <==> c.active && !early && !late && !spent)
            && (Eligibility(c, now) == Some(Inactive) <==> !c.active)
            && (Eligibility(c, now) == Some(NotYetValid) <==> c.active && early)
            && (Eligibility(c, now) == Some(PastExpiry) <==> c.active && !early && late)
            && (Eligibility(c, now) == Some(UsedUp) <==> c.active && !early && !late && spent)
  {
  }

  // ----- Application -----

  function Discounted(c: Coupon, subtotal: int, shipping: int): Result<Summary, CouponError> {
    if subtotal < c.minSubtotalCents then Err(BelowMinimum(c.minSubtotalCents))
    else
      match c.kind
      case Percent =>
        var d := Quo(Wrap(subtotal * c.value), 100);
        ItemsOff(if d > subtotal then subtotal else d, subtotal, shipping)
      case Amount => ItemsOff(if c.value > subtotal then subtotal else c.value, subtotal, shipping)
      case FreeShipping => Ok(Summary(0, shipping, shipping, subtotal, 0, subtotal))
      case Unknown(_) => Err(UnsupportedKind)
  }

  function ItemsOff(d: int, subtotal: int, shipping: int): Result<Summary, CouponError> {
    var rest := Wrap(subtotal - d);
    Ok(Summary(d, 0, d, rest, shipping, Wrap(rest + shipping)))
  }

  method ApplyCoupon(c: Coupon, subtotal: int, shipping: int) returns (r: Result<Summary, CouponError>)
    requires InInt64(subtotal)
    ensures r == Discounted(c, subtotal, shipping)
    ensures subtotal < c.minSubtotalCents ==> r == Err(BelowMinimum(c.minSubtotalCents))
    ensures c.minSubtotalCents <= subtotal && c.kind.Unknown? ==> r == Err(UnsupportedKind)
  {
    if subtotal < c.minSubtotalCents {
      return Err(BelowMinimum(c.minSubtotalCents));
    }
    var out := Summary(0, 0, 0, subtotal, shipping, 0);
    match c.kind {
      case Percent =>
        var d := Quo(Wrap(subtotal * c.value), 100);
        if d > subtotal {
          d := subtotal;
        }
        out := out.(itemDiscount := d, newSubtotal := Wrap(subtotal - d));
      case Amount =>
        var d := c.value;
        if d > subtotal {
          d := subtotal;
        }
        out := out.(itemDiscount := d, newSubtotal := Wrap(subtotal - d));
      case FreeShipping =>
        out := out.(shippingDiscount := shipping, newShipping := 0);
      case Unknown(_) =>
        return Err(UnsupportedKind);
    }
    WrapExactly(subtotal);
    out := out.(totalDiscount := out.itemDiscount + out.shippingDiscount);
    out := out.(newAmount := Wrap(out.newSubtotal + out.newShipping));
    return Ok(out);
  }

  // What checkout lets through: at most 50 lines of at most 20 units at 10 million cents each.
  const MAX_SUBTOTAL := 50 * 20 * 10_000_000
  const MAX_SHIPPING := 500_000

  predicate Admissible(subtotal: int, shipping: int) {
    0 <= subtotal <= MAX_SUBTOTAL && 0 <= shipping <= MAX_SHIPPING
  }

  lemma PercentOf(subtotal: int, value: int)
    requires 0 <= subtotal <= MAX_SUBTOTAL && 0 < value <= 100
    ensures 0 <= subtotal * value <= MAX_SUBTOTAL * 100
    ensures Wrap(subtotal * value) == subtotal * value
    ensures var d := Quo(Wrap(subtotal * value), 100);
            0 <= d <= subtotal && subtotal * value - 100 < 100 * d <= subtotal * value
  {
    ProductBound(subtotal, MAX_SUBTOTAL, value, 100);
    WrapExactly(subtotal * value);
    ProductBound(subtotal, subtotal, value, 100);
  }

  lemma ProductBound(a: int, a': int, b: int, b': int)
    requires 0 <= a <= a' && 0 <= b <= b'
    ensures 0 <= a * b <= a' * b'
  {
    assert a * b <= a' * b;
    assert a' * b <= a' * b';
  }

  /** On everything checkout admits, a coupon conserves money and never goes negative: what is taken
      off plus what is left is what was there, for the items, the shipping and the whole, and no
      intermediate value leaves 64 bits. A percentage is rounded in the shop's favour. */
  lemma CouponConserves(c: Coupon, subtotal: int, shipping: int)
    requires ValidCoupon(c) && Admissible(subtotal, shipping)
    ensures Discounted(c, subtotal, shipping).Ok? <==> c.minSubtotalCents <= subtotal
    ensures Discounted(c, subtotal, shipping).Ok? ==>
              var s := Discounted(c, subtotal, shipping).value;
              && 0 <= s.itemDiscount && 0 <= s.shippingDiscount && 0 <= s.newSubtotal && 0 <= s.newShipping
              && s.itemDiscount + s.newSubtotal == subtotal
              && s.shippingDiscount + s.newShipping == shipping
              && s.totalDiscount == s.itemDiscount + s.shippingDiscount
              && s.newAmount == s.newSubtotal + s.newShipping
              && s.totalDiscount + s.newAmount == subtotal + shipping
              && (c.kind == Percent ==> InInt64(subtotal * c.value))
              && (c.kind == Percent ==> 100 * s.itemDiscount <= subtotal * c.value < 100 * s.itemDiscount + 100)
              && (c.kind == Amount ==> s.itemDiscount == if c.value <= subtotal then c.value else subtotal)
              && (if c.kind == FreeShipping then s.newShipping == s.itemDiscount == 0 else s.shippingDiscount == 0)
  {
    if c.kind == Percent {
      PercentOf(subtotal, c.value);
    }
    hide Quo;
    if Discounted(c, subtotal, shipping).Ok? {
      var s := Discounted(c, subtotal, shipping).value;
      WrapExactly(subtotal - s.itemDiscount);
      WrapExactly(subtotal - s.itemDiscount + shipping);
    }
  }

  /** Buying more never costs less: once the minimum is met, the charged amount is nondecreasing in
      the subtotal. */
  lemma ChargeIsMonotone(c: Coupon, low: int, high: int, shipping: int)
    requires ValidCoupon(c) && Admissible(low, shipping) && Admissible(high, shipping)
    requires c.minSubtotalCents <= low <= high
    ensures Discounted(c, low, shipping).Ok? && Discounted(c, high, shipping).Ok?
    ensures Discounted(c, low, shipping).value.newAmount <= Discounted(c, high, shipping).value.newAmount
  {
    CouponConserves(c, low, shipping);
    CouponConserves(c, high, shipping);
    if c.kind == Percent {
      hide Discounted;
      PercentMonotone(low, high, c.value, Discounted(c, low, shipping).value.itemDiscount,
                      Discounted(c, high, shipping).value.itemDiscount);
    }
  }

  lemma PercentMonotone(low: int, high: int, value: int, dLow: int, dHigh: int)
    requires 0 <= low <= high && 0 < value <= 100
    requires low * value < 100 * dLow + 100 && 100 * dHigh <= high * value
    ensures low - dLow <= high - dHigh
  {
    ProductBound(high - low, high - low, value, 100);
    assert high * value == low * value + (high - low) * value;
  }
}
