/** The catalog filter algebra of the storefront (frontend/src/lib/productFilters.ts). Prices and
    stock levels are integers. */
module ProductFilters {
  import opened Wrappers
  import opened Sequences

  datatype Product = Product(sizes: seq<string>, colors: seq<string>, priceCents: int, stock: int)

  datatype FilterState = FilterState(sizes: seq<string>, colors: seq<string>, priceMaxCents: Option<int>,
                                     inStockOnly: bool)

  datatype Bounds = Bounds(sizes: seq<string>, colors: seq<string>, minCents: int, maxCents: int)

  // ----- Bounds -----

  // A JavaScript Set, listed in insertion order, after adding the elements of xs.
  function AddAll(acc: seq<string>, xs: seq<string>): seq<string> {
    if xs == [] then acc
    else
      var prev := AddAll(acc, xs[..|xs| - 1]);
      var x := xs[|xs| - 1];
      if x in prev then prev else prev + [x]
  }

  datatype Facet = Size | Color

  function OptionsOf(p: Product, facet: Facet): seq<string> {
    if facet == Size then p.sizes else p.colors
  }

  function Offered(products: seq<Product>, facet: Facet): seq<string> {
    if products == [] then []
    else AddAll(Offered(products[..|products| - 1], facet), OptionsOf(products[|products| - 1], facet))
  }

  // The least positive price so far (None stands for infinity) and the greatest.
  function Lowest(products: seq<Product>): Option<int> {
    if products == [] then None
    else
      var prev, price := Lowest(products[..|products| - 1]), products[|products| - 1].priceCents;
      if price > 0 && (prev.None? || price < prev.value) then Some(price) else prev
  }

  function Highest(products: seq<Product>): int {
    if products == [] then 0
    else
      var prev, price := Highest(products[..|products| - 1]), products[|products| - 1].priceCents;
      if price > 0 && price > prev then price else prev
  }

  function BoundsOf(products: seq<Product>): Bounds {
    var low := if Lowest(products).Some? then Lowest(products).value else 0;
    var high := if Highest(products) < low then low else Highest(products);
    Bounds(Offered(products, Size), Offered(products, Color), low, high)
  }

  method Insert(acc: seq<string>, xs: seq<string>) returns (r: seq<string>)
    ensures r == AddAll(acc, xs)
  {
    r := acc;
    for i := 0 to |xs|
      invariant r == AddAll(acc, xs[..i])
    {
      assert xs[..i + 1][..i] == xs[..i];
      if xs[i] !in r {
        r := r + [xs[i]];
      }
    }
    assert xs[..|xs|] == xs;
  }

  method DeriveFilterBounds(products: seq<Product>) returns (b: Bounds)
    ensures b == BoundsOf(products)
  {
    hide AddAll;
    var sizes: seq<string>, colors: seq<string> := [], [];
    var min: Option<int>, max := None, 0;
    for i := 0 to |products|
      invariant sizes == Offered(products[..i], Size) && colors == Offered(products[..i], Color)
      invariant min == Lowest(products[..i]) && max == Highest(products[..i])
    {
      assert products[..i + 1][..i] == products[..i];
      var p := products[i];
      sizes := Insert(sizes, p.sizes);
      colors := Insert(colors, p.colors);
      if p.priceCents > 0 {
        if min.None? || p.priceCents < min.value {
          min := Some(p.priceCents);
        }
        if p.priceCents > max {
          max := p.priceCents;
        }
      }
    }
    assert products[..|products|] == products;
    var low := if min.None? then 0 else min.value;
    if max < low {
      max := low;
    }
    return Bounds(sizes, colors, low, max);
  }

  lemma {:induction false} AddAllMembers(acc: seq<string>, xs: seq<string>)
    ensures forall x :: x in AddAll(acc, xs) <==> x in acc || x in xs
    ensures Distinct(acc) ==> Distinct(AddAll(acc, xs))
  {
    if xs != [] {
      var n := |xs| - 1;
      AddAllMembers(acc, xs[..n]);
      assert xs == xs[..n] + [xs[n]];
    }
  }

  lemma {:induction false} OfferedMembers(products: seq<Product>, facet: Facet)
    ensures forall x :: x in Offered(products, facet) <==> exists p :: p in products && x in OptionsOf(p, facet)
    ensures Distinct(Offered(products, facet))
  {
    if products != [] {
      var n := |products| - 1;
      OfferedMembers(products[..n], facet);
      AddAllMembers(Offered(products[..n], facet), OptionsOf(products[n], facet));
      assert products == products[..n] + [products[n]];
    }
  }

  lemma {:induction false} AddAllGrows(acc: seq<string>, xs: seq<string>, j: nat)
    requires j <= |xs|
    ensures AddAll(acc, xs[..j]) <= AddAll(acc, xs)
  {
    if j < |xs| {
      AddAllGrows(acc, xs[..|xs| - 1], j);
      assert xs[..|xs| - 1][..j] == xs[..j];
    } else {
      assert xs[..j] == xs;
    }
  }

  /** Options are listed in the order they are first met: more products only append to the list. */
  lemma {:induction false} OptionsInOrder(products: seq<Product>, facet: Facet, i: nat)
    requires i <= |products|
    ensures Offered(products[..i], facet) <= Offered(products, facet)
  {
    hide AddAll;
    if i < |products| {
      var n := |products| - 1;
      OptionsInOrder(products[..n], facet, i);
      assert products[..n][..i] == products[..i];
      AddAllGrows(Offered(products[..n], facet), OptionsOf(products[n], facet), 0);
      assert AddAll(Offered(products[..n], facet), []) == Offered(products[..n], facet) by {
        AddNothing(Offered(products[..n], facet));
      }
    } else {
      assert products[..i] == products;
    }
  }

  lemma AddNothing(acc: seq<string>)
    ensures AddAll(acc, []) == acc
  {
  }

  lemma {:induction false} PriceRange(products: seq<Product>)
    ensures forall p | p in products :: p.priceCents <= Highest(products)
    ensures Highest(products) == 0 <==> Lowest(products).None?
    ensures Lowest(products).Some? ==>
              && (exists p :: p in products && p.priceCents == Lowest(products).value)
              && (exists p :: p in products && p.priceCents == Highest(products))
              && 0 < Lowest(products).value <= Highest(products)
              && forall p | p in products && p.priceCents > 0 :: Lowest(products).value <= p.priceCents
    ensures Lowest(products).None? ==> forall p | p in products :: p.priceCents <= 0
  {
    if products != [] {
      var n := |products| - 1;
      PriceRange(products[..n]);
      assert products == products[..n] + [products[n]];
      assert products[n] in products;
    }
  }

  /** The bounds list every size and colour offered, once each, and the price range is the tightest
      one around the positive prices (or [0, 0] when there are none). */
  lemma BoundsAreTight(products: seq<Product>)
    ensures var b := BoundsOf(products);
            && (forall x :: x in b.sizes <==> exists p :: p in products && x in p.sizes)
            && (forall x :: x in b.colors <==> exists p :: p in products && x in p.colors)
            && Distinct(b.sizes) && Distinct(b.colors)
            && (forall p | p in products :: p.priceCents <= b.maxCents)
            && (forall p | p in products && 0 < p.priceCents :: b.minCents <= p.priceCents)
            && (if exists p :: p in products && 0 < p.priceCents then
                  && (exists p :: p in products && p.priceCents == b.minCents > 0)
                  && (exists p :: p in products && p.priceCents == b.maxCents > 0)
                else b.minCents == b.maxCents == 0)
  {
    hide Offered, Lowest, Highest;
    OfferedMembers(products, Size);
    OfferedMembers(products, Color);
    PriceRange(products);
    forall x ensures x in BoundsOf(products).sizes <==> exists p :: p in products && x in p.sizes {
      if p :| p in products && x in p.sizes { assert x in OptionsOf(p, Size); }
    }
    forall x ensures x in BoundsOf(products).colors <==> exists p :: p in products && x in p.colors {
      if p :| p in products && x in p.colors { assert x in OptionsOf(p, Color); }
    }
  }

  // ----- Filtering -----

  predicate Shares(xs: seq<string>, ys: seq<string>) {
    exists x :: x in xs && x in ys
  }

  function EffectiveMax(f: FilterState, b: Bounds): int {
    if f.priceMaxCents.None? then b.maxCents
    else if f.priceMaxCents.value < b.maxCents then f.priceMaxCents.value
    else b.maxCents
  }

  predicate Matches(p: Product, f: FilterState, b: Bounds) {
    && (|f.sizes| > 0 ==> Shares(p.sizes, f.sizes))
    && (|f.colors| > 0 ==> Shares(p.colors, f.colors))
    && p.priceCents <= EffectiveMax(f, b)
    && (f.inStockOnly ==> p.stock > 0)
  }

  function ApplyFilters(products: seq<Product>, f: FilterState, b: Bounds): seq<Product> {
    if products == [] then []
    else (if Matches(products[0], f, b) then [products[0]] else []) + ApplyFilters(products[1..], f, b)
  }

  // The products kept are listed in their order.
  ghost predicate Sublist(kept: seq<Product>, products: seq<Product>)
    decreases |products|
  {
    if products == [] then kept == []
    else Sublist(kept, products[1..]) || (kept != [] && kept[0] == products[0] && Sublist(kept[1..], products[1..]))
  }

  lemma {:induction false} KeptInOrder(products: seq<Product>, f: FilterState, b: Bounds)
    ensures Sublist(ApplyFilters(products, f, b), products)
  {
    hide Matches;
    if products != [] {
      var rest := ApplyFilters(products[1..], f, b);
      KeptInOrder(products[1..], f, b);
      assert ([products[0]] + rest)[1..] == rest && [] + rest == rest;
    }
  }

  lemma {:induction false} KeptCounts(products: seq<Product>, f: FilterState, b: Bounds, p: Product)
    ensures multiset(ApplyFilters(products, f, b))[p] == if Matches(p, f, b) then multiset(products)[p] else 0
  {
    hide Matches;
    if products != [] {
      KeptCounts(products[1..], f, b, p);
      assert products == [products[0]] + products[1..];
    }
  }

  /** A product is kept, as often as it is listed and in the same order, exactly if it comes in a wanted size
      and a wanted color where any are wanted, costs no more than the wanted maximum and the catalog's, and
      is in stock where that is wanted. */
  lemma FilteredExactly(products: seq<Product>, f: FilterState, b: Bounds, p: Product)
    ensures Sublist(ApplyFilters(products, f, b), products)
    ensures multiset(ApplyFilters(products, f, b))[p] ==
              if (&& (f.sizes != [] ==> exists s :: s in p.sizes && s in f.sizes)
                  && (f.colors != [] ==> exists c :: c in p.colors && c in f.colors)
                  && p.priceCents <= b.maxCents
                  && (f.priceMaxCents.Some? ==> p.priceCents <= f.priceMaxCents.value)
                  && (f.inStockOnly ==> 0 < p.stock))
              then multiset(products)[p] else 0
  {
    KeptInOrder(products, f, b);
    KeptCounts(products, f, b, p);
    hide ApplyFilters;
  }

  datatype Criterion = BySize | ByColor | ByPrice | ByStock

  predicate Active(c: Criterion, f: FilterState, b: Bounds) {
    match c
    case BySize => f.sizes != []
    case ByColor => f.colors != []
    case ByPrice => f.priceMaxCents.Some? && f.priceMaxCents.value < b.maxCents
    case ByStock => f.inStockOnly
  }

  function ActiveCriteria(f: FilterState, b: Bounds): (cs: set<Criterion>)
    ensures forall c :: c in cs <==> Active(c, f, b)
  {
    set c | c in {BySize, ByColor, ByPrice, ByStock} && Active(c, f, b)
  }

  method ActiveFilterCount(f: FilterState, b: Bounds) returns (n: nat)
    ensures n == |ActiveCriteria(f, b)|
    ensures n == (if f.sizes != [] then 1 else 0) + (if f.colors != [] then 1 else 0)
                 + (if f.priceMaxCents.Some? && f.priceMaxCents.value < b.maxCents then 1 else 0)
                 + (if f.inStockOnly then 1 else 0)
  {
    hide ActiveCriteria, AddCriterion;
    n := 0;
    ghost var counted: set<Criterion> := {};
    if |f.sizes| > 0 {
      n := n + 1;
      counted := AddCriterion(counted, BySize);
    }
    if |f.colors| > 0 {
      n := n + 1;
      counted := AddCriterion(counted, ByColor);
    }
    if f.priceMaxCents.Some? && f.priceMaxCents.value < b.maxCents {
      n := n + 1;
      counted := AddCriterion(counted, ByPrice);
    }
    if f.inStockOnly {
      n := n + 1;
      counted := AddCriterion(counted, ByStock);
    }
    SameCriteria(counted, f, b);
  }

  ghost function AddCriterion(cs: set<Criterion>, c: Criterion): (r: set<Criterion>)
    requires c !in cs
    ensures |r| == |cs| + 1 && forall d :: d in r <==> d == c || d in cs
  {
    cs + {c}
  }

  lemma SameCriteria(cs: set<Criterion>, f: FilterState, b: Bounds)
    requires BySize in cs <==> Active(BySize, f, b)
    requires ByColor in cs <==> Active(ByColor, f, b)
    requires ByPrice in cs <==> Active(ByPrice, f, b)
    requires ByStock in cs <==> Active(ByStock, f, b)
    ensures cs == ActiveCriteria(f, b)
  {
    forall c ensures c in cs <==> c in ActiveCriteria(f, b) {
      match c { case BySize => case ByColor => case ByPrice => case ByStock => }
    }
  }

  lemma {:induction false} ApplyAgree(products: seq<Product>, f: FilterState, g: FilterState, b: Bounds)
    requires forall p | p in products :: Matches(p, f, b) <==> Matches(p, g, b)
    ensures ApplyFilters(products, f, b) == ApplyFilters(products, g, b)
  {
    if products != [] {
      assert products[0] in products;
      ApplyAgree(products[1..], f, g, b);
    }
  }

  lemma {:induction false} ApplyAll(products: seq<Product>, f: FilterState, b: Bounds)
    requires forall p | p in products :: Matches(p, f, b)
    ensures ApplyFilters(products, f, b) == products
  {
    if products != [] {
      assert products[0] in products;
      ApplyAll(products[1..], f, b);
    }
  }

  lemma {:induction false} ApplyNone(products: seq<Product>, f: FilterState, b: Bounds)
    requires forall p | p in products :: !Matches(p, f, b)
    ensures ApplyFilters(products, f, b) == []
  {
    if products != [] {
      assert products[0] in products;
      ApplyNone(products[1..], f, b);
    }
  }

  lemma {:induction false} ApplySome(products: seq<Product>, f: FilterState, b: Bounds)
    ensures ApplyFilters(products, f, b) != [] <==> exists p :: p in products && Matches(p, f, b)
  {
    if products != [] {
      assert products[0] in products;
      ApplySome(products[1..], f, b);
    }
  }

  /** With bounds derived from the catalog, a zero count means the filter does nothing to any list
      of catalog products. */
  lemma ZeroCountIsIdentity(catalog: seq<Product>, shown: seq<Product>, f: FilterState)
    requires forall p | p in shown :: p in catalog
    requires |ActiveCriteria(f, BoundsOf(catalog))| == 0
    ensures ApplyFilters(shown, f, BoundsOf(catalog)) == shown
  {
    var b := BoundsOf(catalog);
    assert ActiveCriteria(f, b) == {};
    assert !Active(BySize, f, b) && !Active(ByColor, f, b) && !Active(ByPrice, f, b) && !Active(ByStock, f, b);
    BoundsAreTight(catalog);
    ApplyAll(shown, f, b);
  }

  // ----- Pruning -----

  function KeepOffered(xs: seq<string>, offered: seq<string>): (r: seq<string>)
    ensures |r| <= |xs|
  {
    if xs == [] then [] else (if xs[0] in offered then [xs[0]] else []) + KeepOffered(xs[1..], offered)
  }

  function PruneFiltersToBounds(f: FilterState, b: Bounds): FilterState {
    var sizes, colors := KeepOffered(f.sizes, b.sizes), KeepOffered(f.colors, b.colors);
    if |sizes| == |f.sizes| && |colors| == |f.colors| then f else f.(sizes := sizes, colors := colors)
  }

  lemma {:induction false} KeepOfferedMembers(xs: seq<string>, offered: seq<string>)
    ensures forall x :: x in KeepOffered(xs, offered) <==> x in xs && x in offered
    ensures |KeepOffered(xs, offered)| == |xs| ==> KeepOffered(xs, offered) == xs
  {
    if xs != [] {
      KeepOfferedMembers(xs[1..], offered);
      assert xs == [xs[0]] + xs[1..];
    }
  }

  // A non-empty selection of which nothing is offered any more.
  predicate Emptied(f: FilterState, b: Bounds) {
    || (f.sizes != [] && forall x | x in f.sizes :: x !in b.sizes)
    || (f.colors != [] && forall x | x in f.colors :: x !in b.colors)
  }

  /** Pruning stale options leaves what catalog products are shown unchanged, unless it empties a
      non-empty selection: then the stale filter showed nothing, so the result changes exactly if some
      product shown matches the pruned filter. */
  lemma PruningIsHarmless(catalog: seq<Product>, shown: seq<Product>, f: FilterState)
    requires forall p | p in shown :: p in catalog
    ensures var b := BoundsOf(catalog); var pruned := PruneFiltersToBounds(f, b);
            && (Emptied(f, b) ==> ApplyFilters(shown, f, b) == [])
            && (ApplyFilters(shown, pruned, b) != ApplyFilters(shown, f, b)
                <==> Emptied(f, b) && exists p :: p in shown && Matches(p, pruned, b))
  {
    var b := BoundsOf(catalog);
    var pruned := PruneFiltersToBounds(f, b);
    BoundsAreTight(catalog);
    hide BoundsOf, KeepOffered;
    KeepOfferedMembers(f.sizes, b.sizes);
    KeepOfferedMembers(f.colors, b.colors);
    if Emptied(f, b) {
      ApplyNone(shown, f, b);
      ApplySome(shown, pruned, b);
    } else {
      assert pruned.sizes == [] <==> f.sizes == [] by {
        if f.sizes != [] {
          var x :| x in f.sizes && x in b.sizes;
          assert x in pruned.sizes;
        }
      }
      assert pruned.colors == [] <==> f.colors == [] by {
        if f.colors != [] {
          var x :| x in f.colors && x in b.colors;
          assert x in pruned.colors;
        }
      }
      ApplyAgree(shown, f, pruned, b);
    }
  }
}
