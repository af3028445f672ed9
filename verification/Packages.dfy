/** Shipping packages (backend/shipping.go): cart lines become one package per product, packages
    become one volume. Dimensions, weights and insured values are reals. */
module Packages {
  import opened Wrappers
  import opened Sequences

  datatype CartRef = CartRef(productID: string, quantity: int)

  datatype Package = Package(id: string, width: real, height: real, length: real, weight: real,
                             insurance: real, quantity: int)

  datatype Volume = Volume(height: real, width: real, length: real, weight: real)

  // One merged box and what it is insured for.
  datatype Shipment = Shipment(volume: Volume, insurance: real)

  datatype PackError = InvalidItemCount | InvalidItemQuantity | InvalidProductId

  const MAX_LINES := 50
  const MAX_QUANTITY := 20

  const PACKAGING_PRESETS: map<string, Package> := map[
    "p-tee-bw-black" := Package("", 25.0, 3.0, 30.0, 0.22, 89.90, 0),
    "p-tee-bw-white" := Package("", 25.0, 3.0, 30.0, 0.22, 89.90, 0),
    "p-boxy-black" := Package("", 28.0, 4.0, 32.0, 0.28, 99.90, 0),
    "p-boxy-white" := Package("", 28.0, 4.0, 32.0, 0.28, 99.90, 0),
    "p-bb-look-black" := Package("", 25.0, 3.0, 30.0, 0.18, 79.90, 0),
    "p-bb-look-white" := Package("", 25.0, 3.0, 30.0, 0.18, 79.90, 0)
  ]

  function PackagingFor(productID: string): Package {
    if productID in PACKAGING_PRESETS then PACKAGING_PRESETS[productID]
    else Package("", 25.0, 3.0, 30.0, 0.25, 0.0, 0)
  }

  /** What each preset product is packed as, and any other product. */
  lemma PresetTable(id: string)
    ensures var p := PackagingFor(id); var box := (p.width, p.height, p.length, p.weight, p.insurance);
            if id == "p-tee-bw-black" || id == "p-tee-bw-white" then box == (25.0, 3.0, 30.0, 0.22, 89.90)
            else if id == "p-boxy-black" || id == "p-boxy-white" then box == (28.0, 4.0, 32.0, 0.28, 99.90)
            else if id == "p-bb-look-black" || id == "p-bb-look-white" then box == (25.0, 3.0, 30.0, 0.18, 79.90)
            else box == (25.0, 3.0, 30.0, 0.25, 0.0)
  {
  }

  // The package of a single cart line.
  function Line(it: CartRef): Package {
    PackagingFor(it.productID).(id := it.productID, quantity := it.quantity)
  }

  function Lines(items: seq<CartRef>): (pkgs: seq<Package>)
    ensures |pkgs| == |items|
  {
    seq(|items|, i requires 0 <= i < |items| => Line(items[i]))
  }

  // ----- Consolidation -----

  function LineError(it: CartRef): Option<PackError> {
    if it.quantity <= 0 || it.quantity > MAX_QUANTITY then Some(InvalidItemQuantity)
    else if it.productID == "" then Some(InvalidProductId)
    else None
  }

  // The error of the first bad line.
  function FirstError(items: seq<CartRef>): Option<PackError> {
    if items == [] then None
    else if LineError(items[0]).Some? then LineError(items[0])
    else FirstError(items[1..])
  }

  function Absorb(pkgs: seq<Package>, it: CartRef): seq<Package> {
    if pkgs == [] then [Line(it)]
    else if pkgs[0].id == it.productID then [pkgs[0].(quantity := pkgs[0].quantity + it.quantity)] + pkgs[1..]
    else [pkgs[0]] + Absorb(pkgs[1..], it)
  }

  function Consolidate(items: seq<CartRef>): seq<Package> {
    if items == [] then [] else Absorb(Consolidate(items[..|items| - 1]), items[|items| - 1])
  }

  function Packed(items: seq<CartRef>): Result<seq<Package>, PackError> {
    if |items| == 0 || |items| > MAX_LINES then Err(InvalidItemCount)
    else if FirstError(items).Some? then Err(FirstError(items).value)
    else Ok(Consolidate(items))
  }

  lemma {:induction false} FirstErrorAt(items: seq<CartRef>, i: nat)
    requires i < |items| && LineError(items[i]).Some?
    requires forall j | 0 <= j < i :: LineError(items[j]).None?
    ensures FirstError(items) == LineError(items[i])
  {
    if i > 0 {
      FirstErrorAt(items[1..], i - 1);
    }
  }

  lemma {:induction false} NoError(items: seq<CartRef>)
    ensures FirstError(items).None? <==> forall i | 0 <= i < |items| :: LineError(items[i]).None?
  {
    if items != [] {
      NoError(items[1..]);
      if FirstError(items).None? {
        forall i | 0 <= i < |items| ensures LineError(items[i]).None? {
          if i > 0 { assert items[i] == items[1..][i - 1]; }
        }
      }
    }
  }

  lemma {:induction false} AbsorbKnown(pkgs: seq<Package>, it: CartRef, k: nat)
    requires k < |pkgs| && pkgs[k].id == it.productID
    requires forall j | 0 <= j < k :: pkgs[j].id != it.productID
    ensures Absorb(pkgs, it) == pkgs[k := pkgs[k].(quantity := pkgs[k].quantity + it.quantity)]
  {
    if k > 0 {
      AbsorbKnown(pkgs[1..], it, k - 1);
    }
  }

  lemma {:induction false} AbsorbNew(pkgs: seq<Package>, it: CartRef)
    requires forall j | 0 <= j < |pkgs| :: pkgs[j].id != it.productID
    ensures Absorb(pkgs, it) == pkgs + [Line(it)]
  {
    if pkgs != [] {
      AbsorbNew(pkgs[1..], it);
    }
  }

  /** The packaging accepts exactly the carts of 1 to 50 lines of 1 to 20 units each that name their
      products; and it names what is wrong with the others. */
  lemma PackedExactly(items: seq<CartRef>)
    ensures Packed(items).Ok?
       <==> && 1 <= |items| <= 50
            && forall i | 0 <= i < |items| :: 1 <= items[i].quantity <= 20 && items[i].productID != ""
    ensures Packed(items) == Err(InvalidItemCount) <==> !(1 <= |items| <= 50)
    ensures forall i | 1 <= |items| <= 50 && 0 <= i < |items|
                       && (forall j | 0 <= j < i :: 1 <= items[j].quantity <= 20 && items[j].productID != "") ::
              && (!(1 <= items[i].quantity <= 20) ==> Packed(items) == Err(InvalidItemQuantity))
              && (1 <= items[i].quantity <= 20 && items[i].productID == "" ==> Packed(items) == Err(InvalidProductId))
  {
    hide FirstError, Consolidate;
    NoError(items);
    forall i | 0 <= i < |items| && LineError(items[i]).Some? && forall j | 0 <= j < i :: LineError(items[j]).None?
      ensures FirstError(items) == LineError(items[i])
    {
      FirstErrorAt(items, i);
    }
    assert forall i | 0 <= i < |items| ::
             LineError(items[i]).None? <==> 1 <= items[i].quantity <= 20 && items[i].productID != "";
    if FirstError(items).Some? {
      FirstErrorIsNoCount(items);
    }
  }

  lemma {:induction false} FirstErrorIsNoCount(items: seq<CartRef>)
    ensures FirstError(items) != Some(InvalidItemCount)
  {
    if items != [] {
      FirstErrorIsNoCount(items[1..]);
    }
  }

  function InOrder(order: seq<string>, merged: map<string, Package>): (pkgs: seq<Package>)
    requires forall id | id in order :: id in merged
    ensures |pkgs| == |order|
  {
    seq(|order|, k requires 0 <= k < |order| => merged[order[k]])
  }

  // The loop's view of the packages: a map and the order its keys came in.
  ghost predicate Represents(order: seq<string>, merged: map<string, Package>, pkgs: seq<Package>) {
    && Distinct(order) && (forall id | id in merged :: id in order) && (forall id | id in order :: id in merged)
    && (forall id | id in merged :: merged[id].id == id)
    && pkgs == InOrder(order, merged)
  }

  lemma RepresentsKnown(order: seq<string>, merged: map<string, Package>, pkgs: seq<Package>, it: CartRef)
    requires Represents(order, merged, pkgs) && it.productID in merged
    ensures var p := merged[it.productID];
            Represents(order, merged[it.productID := p.(quantity := p.quantity + it.quantity)], Absorb(pkgs, it))
  {
    var k :| 0 <= k < |order| && order[k] == it.productID;
    AbsorbKnown(pkgs, it, k);
  }

  lemma RepresentsNew(order: seq<string>, merged: map<string, Package>, pkgs: seq<Package>, it: CartRef)
    requires Represents(order, merged, pkgs) && it.productID !in merged
    ensures Represents(order + [it.productID], merged[it.productID := Line(it)], Absorb(pkgs, it))
  {
    hide PackagingFor;
    AbsorbNew(pkgs, it);
  }

  method BuildPackages(items: seq<CartRef>) returns (r: Result<seq<Package>, PackError>)
    ensures r == Packed(items)
  {
    if |items| == 0 || |items| > MAX_LINES {
      return Err(InvalidItemCount);
    }
    hide Absorb, Represents, PackagingFor;
    var merged: map<string, Package> := map[];
    var order: seq<string> := [];
    EmptyRepresents();
    for i := 0 to |items|
      invariant forall j | 0 <= j < i :: LineError(items[j]).None?
      invariant Represents(order, merged, Consolidate(items[..i]))
    {
      var it := items[i];
      if it.quantity <= 0 || it.quantity > MAX_QUANTITY {
        FirstErrorAt(items, i);
        return Err(InvalidItemQuantity);
      }
      if it.productID == "" {
        FirstErrorAt(items, i);
        return Err(InvalidProductId);
      }
      assert items[..i + 1][..i] == items[..i];
      if it.productID in merged {
        RepresentsKnown(order, merged, Consolidate(items[..i]), it);
        var p := merged[it.productID];
        merged := merged[it.productID := p.(quantity := p.quantity + it.quantity)];
        continue;
      }
      RepresentsNew(order, merged, Consolidate(items[..i]), it);
      var pkg := PackagingFor(it.productID);
      pkg := pkg.(id := it.productID, quantity := it.quantity);
      merged := merged[it.productID := pkg];
      order := order + [it.productID];
    }
    NoError(items);
    assert items[..|items|] == items;
    var out := Collect(order, merged, Consolidate(items));
    return Ok(out);
  }

  lemma EmptyRepresents()
    ensures Represents([], map[], [])
  {
  }

  // The last loop: the packages in the order their products were first met.
  method Collect(order: seq<string>, merged: map<string, Package>, ghost pkgs: seq<Package>)
    returns (out: seq<Package>)
    requires Represents(order, merged, pkgs)
    ensures out == pkgs
  {
    out := [];
    for i := 0 to |order|
      invariant out == pkgs[..i]
    {
      out := out + [merged[order[i]]];
    }
  }

  // ----- Merging -----

  // The units a package stands for.
  function Units(p: Package): int {
    if p.quantity <= 0 then 1 else p.quantity
  }

  function Max(a: real, b: real): real {
    if b > a then b else a
  }

  const EMPTY := Shipment(Volume(0.0, 0.0, 0.0, 0.0), 0.0)

  function Load(s: Shipment, p: Package): Shipment {
    var q := Units(p) as real;
    var v := s.volume;
    Shipment(Volume(Max(v.height, p.height), Max(v.width, p.width), Max(v.length, p.length), v.weight + p.weight * q),
             s.insurance + p.insurance * q)
  }

  function Merged(pkgs: seq<Package>): Shipment {
    if pkgs == [] then EMPTY else Load(Merged(pkgs[..|pkgs| - 1]), pkgs[|pkgs| - 1])
  }

  // What the packages weigh and are insured for together; a package of no quantity counts as one unit.
  function TotalWeight(pkgs: seq<Package>): real {
    if pkgs == [] then 0.0
    else
      var last := pkgs[|pkgs| - 1];
      TotalWeight(pkgs[..|pkgs| - 1]) + last.weight * (if 0 < last.quantity then last.quantity as real else 1.0)
  }

  function TotalInsurance(pkgs: seq<Package>): real {
    if pkgs == [] then 0.0
    else
      var last := pkgs[|pkgs| - 1];
      TotalInsurance(pkgs[..|pkgs| - 1]) + last.insurance * (if 0 < last.quantity then last.quantity as real else 1.0)
  }

  /** The merged box has, side by side, the largest of the packages' own sides, and what it weighs and is
      insured for is the sum over all their units. */
  lemma {:induction false} MergedBox(pkgs: seq<Package>)
    ensures var v := Merged(pkgs).volume;
            && (forall k | 0 <= k < |pkgs| ::
                  pkgs[k].width <= v.width && pkgs[k].height <= v.height && pkgs[k].length <= v.length)
            && 0.0 <= v.width && (v.width == 0.0 || exists k | 0 <= k < |pkgs| :: pkgs[k].width == v.width)
            && 0.0 <= v.height && (v.height == 0.0 || exists k | 0 <= k < |pkgs| :: pkgs[k].height == v.height)
            && 0.0 <= v.length && (v.length == 0.0 || exists k | 0 <= k < |pkgs| :: pkgs[k].length == v.length)
    ensures Merged(pkgs).volume.weight == TotalWeight(pkgs) && Merged(pkgs).insurance == TotalInsurance(pkgs)
  {
    if pkgs != [] {
      var n := |pkgs| - 1;
      var init, p := pkgs[..n], pkgs[n];
      MergedBox(init);
      var u, v := Merged(init).volume, Merged(pkgs).volume;
      hide Merged, TotalWeight, TotalInsurance;
      forall k | 0 <= k < n
        ensures pkgs[k].width <= v.width && pkgs[k].height <= v.height && pkgs[k].length <= v.length
      {
        assert init[k] == pkgs[k];
      }
      if k :| 0 <= k < n && init[k].width == u.width { assert pkgs[k].width == u.width; }
      if k :| 0 <= k < n && init[k].height == u.height { assert pkgs[k].height == u.height; }
      if k :| 0 <= k < n && init[k].length == u.length { assert pkgs[k].length == u.length; }
      assert pkgs[n].width == p.width && pkgs[n].height == p.height && pkgs[n].length == p.length;
    }
  }

  method MergeVolumes(pkgs: seq<Package>) returns (vol: Volume, insurance: real)
    ensures Shipment(vol, insurance) == Merged(pkgs)
    ensures forall k | 0 <= k < |pkgs| ::
              pkgs[k].width <= vol.width && pkgs[k].height <= vol.height && pkgs[k].length <= vol.length
    ensures 0.0 <= vol.width && (vol.width == 0.0 || exists k | 0 <= k < |pkgs| :: pkgs[k].width == vol.width)
    ensures 0.0 <= vol.height && (vol.height == 0.0 || exists k | 0 <= k < |pkgs| :: pkgs[k].height == vol.height)
    ensures 0.0 <= vol.length && (vol.length == 0.0 || exists k | 0 <= k < |pkgs| :: pkgs[k].length == vol.length)
    ensures vol.weight == TotalWeight(pkgs) && insurance == TotalInsurance(pkgs)
  {
    vol, insurance := Volume(0.0, 0.0, 0.0, 0.0), 0.0;
    for i := 0 to |pkgs|
      invariant Shipment(vol, insurance) == Merged(pkgs[..i])
    {
      assert pkgs[..i + 1][..i] == pkgs[..i];
      var p := pkgs[i];
      var q := p.quantity as real;
      if q <= 0.0 {
        q := 1.0;
      }
      vol := vol.(weight := vol.weight + p.weight * q);
      if p.width > vol.width {
        vol := vol.(width := p.width);
      }
      if p.height > vol.height {
        vol := vol.(height := p.height);
      }
      if p.length > vol.length {
        vol := vol.(length := p.length);
      }
      insurance := insurance + p.insurance * q;
    }
    assert pkgs[..|pkgs|] == pkgs;
    MergedBox(pkgs);
  }

  lemma LoadCommutes(s: Shipment, p: Package, q: Package)
    ensures Load(Load(s, p), q) == Load(Load(s, q), p)
  {
  }

  lemma Scale(w: real, a: int, b: int)
    ensures w * a as real + w * b as real == w * (a + b) as real
  {
  }

  // Loading a package and then one more line of its product is loading both at once.
  lemma LoadTogether(s: Shipment, p: Package, it: CartRef)
    requires p == Line(CartRef(it.productID, p.quantity)) && 0 < p.quantity && 0 < it.quantity
    ensures Load(Load(s, p), Line(it)) == Load(s, p.(quantity := p.quantity + it.quantity))
  {
    hide Line, Load, Max;
    var one, both := Line(it), p.(quantity := p.quantity + it.quantity);
    SameDimensions(p, it);
    Scale(p.weight, p.quantity, it.quantity);
    Scale(p.insurance, p.quantity, it.quantity);
    assert Units(p) == p.quantity && Units(one) == it.quantity && Units(both) == p.quantity + it.quantity;
    LoadFields(s, p);
    LoadFields(Load(s, p), one);
    LoadFields(s, both);
    MaxTwice(s.volume.height, p.height);
    MaxTwice(s.volume.width, p.width);
    MaxTwice(s.volume.length, p.length);
  }

  lemma MaxTwice(a: real, b: real)
    ensures Max(Max(a, b), b) == Max(a, b)
  {
  }

  lemma SameDimensions(p: Package, it: CartRef)
    requires p == Line(CartRef(it.productID, p.quantity))
    ensures Line(it) == p.(quantity := it.quantity)
  {
  }

  lemma LoadFields(s: Shipment, p: Package)
    ensures var t := Load(s, p);
            && t.volume.height == Max(s.volume.height, p.height) && t.volume.width == Max(s.volume.width, p.width)
            && t.volume.length == Max(s.volume.length, p.length)
            && t.volume.weight == s.volume.weight + p.weight * Units(p) as real
            && t.insurance == s.insurance + p.insurance * Units(p) as real
  {
  }

  lemma {:induction false} MergedUpdate(pkgs: seq<Package>, it: CartRef, k: nat)
    requires k < |pkgs| && pkgs[k] == Line(CartRef(it.productID, pkgs[k].quantity))
    requires 0 < pkgs[k].quantity && 0 < it.quantity
    ensures Merged(pkgs[k := pkgs[k].(quantity := pkgs[k].quantity + it.quantity)]) == Load(Merged(pkgs), Line(it))
  {
    hide Load, Line;
    var n := |pkgs| - 1;
    var more := pkgs[k].(quantity := pkgs[k].quantity + it.quantity);
    var init, last := pkgs[..n], pkgs[n];
    if k == n {
      assert pkgs[k := more][..n] == init;
      LoadTogether(Merged(init), last, it);
    } else {
      assert pkgs[k := more][..n] == init[k := more];
      MergedUpdate(init, it, k);
      LoadCommutes(Merged(init), Line(it), last);
    }
  }

  // What consolidation has built so far: one well-formed package per product.
  predicate Built(pkgs: seq<Package>) {
    && (forall i, j | 0 <= i < j < |pkgs| :: pkgs[i].id != pkgs[j].id)
    && (forall k | 0 <= k < |pkgs| :: 0 < pkgs[k].quantity && pkgs[k] == Line(CartRef(pkgs[k].id, pkgs[k].quantity)))
  }

  lemma AbsorbStep(pkgs: seq<Package>, it: CartRef)
    requires Built(pkgs) && 0 < it.quantity
    ensures Built(Absorb(pkgs, it)) && Merged(Absorb(pkgs, it)) == Load(Merged(pkgs), Line(it))
  {
    hide Absorb, Load, Line, Merged;
    if k :| 0 <= k < |pkgs| && pkgs[k].id == it.productID {
      AbsorbKnown(pkgs, it, k);
      MergedUpdate(pkgs, it, k);
      LineMore(pkgs[k], it);
      BuiltUpdate(pkgs, k, pkgs[k].(quantity := pkgs[k].quantity + it.quantity));
    } else {
      AbsorbNew(pkgs, it);
      LineFields(it);
      MergedAppend(pkgs, Line(it));
    }
  }

  lemma BuiltUpdate(pkgs: seq<Package>, k: nat, p: Package)
    requires Built(pkgs) && k < |pkgs| && p.id == pkgs[k].id
    requires 0 < p.quantity && p == Line(CartRef(p.id, p.quantity))
    ensures Built(pkgs[k := p])
  {
    hide Line;
  }

  lemma MergedAppend(pkgs: seq<Package>, p: Package)
    ensures Merged(pkgs + [p]) == Load(Merged(pkgs), p)
  {
    assert (pkgs + [p])[..|pkgs|] == pkgs;
  }

  lemma LineMore(p: Package, it: CartRef)
    requires p == Line(CartRef(p.id, p.quantity)) && p.id == it.productID
    ensures p.(quantity := p.quantity + it.quantity) == Line(CartRef(p.id, p.quantity + it.quantity))
  {
  }

  lemma {:induction false} ConsolidatePreserves(items: seq<CartRef>)
    requires forall i | 0 <= i < |items| :: 0 < items[i].quantity
    ensures Built(Consolidate(items)) && Merged(Consolidate(items)) == Merged(Lines(items))
  {
    hide Load, Line, Absorb;
    if items != [] {
      var n := |items| - 1;
      ConsolidatePreserves(items[..n]);
      AbsorbStep(Consolidate(items[..n]), items[n]);
      assert Lines(items)[..n] == Lines(items[..n]);
    }
  }

  // ----- Order of the lines does not matter -----

  lemma {:induction false} MergedExtract(pkgs: seq<Package>, k: nat)
    requires k < |pkgs|
    ensures Merged(pkgs) == Load(Merged(RemoveAt(pkgs, k)), pkgs[k])
  {
    hide Load;
    var n := |pkgs| - 1;
    if k == n {
      assert RemoveAt(pkgs, k) == pkgs[..n];
    } else {
      var init, rest := pkgs[..n], RemoveAt(pkgs, k);
      MergedExtract(init, k);
      assert rest[..|rest| - 1] == RemoveAt(init, k);
      LoadCommutes(Merged(RemoveAt(init, k)), pkgs[k], pkgs[n]);
    }
  }

  lemma {:induction false} LinesPermuted(a: seq<CartRef>, b: seq<CartRef>)
    requires multiset(a) == multiset(b)
    ensures Merged(Lines(a)) == Merged(Lines(b))
    decreases |b|
  {
    hide Load, Line;
    if b == [] {
      assert |multiset(a)| == 0;
    } else {
      var n := |b| - 1;
      var k := MatchLast(a, b);
      LinesPermuted(RemoveAt(a, k), b[..n]);
      MergedExtract(Lines(a), k);
      assert RemoveAt(Lines(a), k) == Lines(RemoveAt(a, k));
      assert Lines(b)[..n] == Lines(b[..n]);
    }
  }

  // ----- What consolidation keeps -----

  // Product ids in the order they first appear.
  function FirstAppearances(items: seq<CartRef>): seq<string> {
    if items == [] then []
    else
      var n := |items| - 1;
      var prev := FirstAppearances(items[..n]);
      if items[n].productID in prev then prev else prev + [items[n].productID]
  }

  function QuantityOf(items: seq<CartRef>, id: string): int {
    if items == [] then 0
    else
      var n := |items| - 1;
      QuantityOf(items[..n], id) + (if items[n].productID == id then items[n].quantity else 0)
  }

  function Ids(pkgs: seq<Package>): (ids: seq<string>)
    ensures |ids| == |pkgs|
  {
    seq(|pkgs|, k requires 0 <= k < |pkgs| => pkgs[k].id)
  }

  // The packages are one per product, in first-appearance order, with the summed quantities.
  ghost predicate Keeps(pkgs: seq<Package>, items: seq<CartRef>) {
    && Built(pkgs) && Ids(pkgs) == FirstAppearances(items)
    && (forall k | 0 <= k < |pkgs| :: pkgs[k].quantity == QuantityOf(items, pkgs[k].id))
    && (forall id | id !in Ids(pkgs) :: QuantityOf(items, id) == 0)
  }

  lemma KeepsStep(pkgs: seq<Package>, items: seq<CartRef>)
    requires items != [] && 0 < items[|items| - 1].quantity
    requires Keeps(pkgs, items[..|items| - 1])
    ensures Keeps(Absorb(pkgs, items[|items| - 1]), items)
  {
    hide Line, Merged, Absorb, Built, Load;
    var it := items[|items| - 1];
    AbsorbStep(pkgs, it);
    DistinctIds(pkgs);
    if k :| 0 <= k < |pkgs| && pkgs[k].id == it.productID {
      AbsorbKnown(pkgs, it, k);
      assert Ids(pkgs)[k] == it.productID;
      assert Ids(Absorb(pkgs, it)) == Ids(pkgs);
    } else {
      AbsorbNew(pkgs, it);
      LineFields(it);
      assert it.productID !in Ids(pkgs);
      assert Ids(Absorb(pkgs, it)) == Ids(pkgs) + [it.productID];
      assert Ids(Absorb(pkgs, it))[|pkgs|] == it.productID;
      forall k | 0 <= k < |pkgs| ensures pkgs[k].id in Ids(pkgs) {
        assert Ids(pkgs)[k] == pkgs[k].id;
      }
    }
  }

  lemma DistinctIds(pkgs: seq<Package>)
    requires Built(pkgs)
    ensures forall i, j | 0 <= i < j < |pkgs| :: pkgs[i].id != pkgs[j].id
  {
    hide Line;
  }

  lemma {:induction false} ConsolidateKeeps(items: seq<CartRef>)
    requires forall i | 0 <= i < |items| :: 0 < items[i].quantity
    ensures Keeps(Consolidate(items), items)
  {
    hide Absorb;
    if items != [] {
      ConsolidateKeeps(items[..|items| - 1]);
      KeepsStep(Consolidate(items[..|items| - 1]), items);
    }
  }

  lemma LineFields(it: CartRef)
    ensures Line(it).id == it.productID && Line(it).quantity == it.quantity
  {
  }

  /** Consolidating a cart the backend accepts gives one package per product, in first-appearance
      order and with the summed quantity, and ships exactly what the separate lines would, in
      whatever order they came. */
  lemma ConsolidationPreservesShipment(items: seq<CartRef>, permuted: seq<CartRef>)
    requires Packed(items).Ok? && multiset(permuted) == multiset(items)
    ensures var pkgs := Packed(items).value;
            && Merged(pkgs) == Merged(Lines(items)) == Merged(Lines(permuted))
            && Ids(pkgs) == FirstAppearances(items) && Distinct(Ids(pkgs))
            && (forall k | 0 <= k < |pkgs| :: pkgs[k].quantity == QuantityOf(items, pkgs[k].id))
            && (forall id | id !in Ids(pkgs) :: QuantityOf(items, id) == 0)
            && Packed(permuted).Ok? && Merged(Packed(permuted).value) == Merged(pkgs)
  {
    hide Line, Merged;
    NoError(items);
    ConsolidatePreserves(items);
    ConsolidateKeeps(items);
    LinesPermuted(items, permuted);
    assert |permuted| == |multiset(permuted)| == |items|;
    forall i | 0 <= i < |permuted| ensures LineError(permuted[i]).None? {
      assert permuted[i] in multiset(items);
      var j :| 0 <= j < |items| && items[j] == permuted[i];
    }
    NoError(permuted);
    ConsolidatePreserves(permuted);
  }
}
