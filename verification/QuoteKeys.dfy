/** The key of the shipping-quote cache (cacheKey in backend/shipping.go), and exactly which product ids
    make it ambiguous. */
module QuoteKeys {
  import opened Wrappers
  import opened GoStrings
  import opened Packages

  function Field(p: Package): string {
    p.id + [':'] + FormatInt(p.quantity)
  }

  function Fields(pkgs: seq<Package>): string {
    if pkgs == [] then "" else Fields(pkgs[..|pkgs| - 1]) + ("|" + Field(pkgs[|pkgs| - 1]))
  }

  function Key(from: string, to: string, pkgs: seq<Package>): string {
    from + "|" + to + Fields(pkgs)
  }

  lemma FieldsNext(pkgs: seq<Package>, i: nat)
    requires i < |pkgs|
    ensures Fields(pkgs[..i + 1]) == Fields(pkgs[..i]) + ("|" + Field(pkgs[i]))
  {
    hide Field;
    assert pkgs[..i + 1][..i] == pkgs[..i];
  }

  lemma FieldText(p: Package)
    ensures "|" + p.id + ":" + FormatInt(p.quantity) == "|" + Field(p)
  {
    hide FormatInt;
    Assoc("|", p.id, [':']);
    Assoc("|", p.id + [':'], FormatInt(p.quantity));
  }

  method CacheKey(from: string, to: string, pkgs: seq<Package>) returns (key: string)
    ensures key == Key(from, to, pkgs)
  {
    hide Field, FormatInt;
    key := from;
    key := key + "|";
    key := key + to;
    assert key + Fields(pkgs[..0]) == key;
    for i := 0 to |pkgs|
      invariant key == from + "|" + to + Fields(pkgs[..i])
    {
      FieldsNext(pkgs, i);
      FieldText(pkgs[i]);
      Assoc(from + "|" + to, Fields(pkgs[..i]), "|" + Field(pkgs[i]));
      key := key + ("|" + pkgs[i].id + ":" + FormatInt(pkgs[i].quantity));
    }
    assert pkgs[..|pkgs|] == pkgs;
  }

  // The ids and quantities of a package list.
  function Contents(pkgs: seq<Package>): (c: seq<(string, int)>)
    ensures |c| == |pkgs|
  {
    seq(|pkgs|, i requires 0 <= i < |pkgs| => (pkgs[i].id, pkgs[i].quantity))
  }

  predicate Counted(pkgs: seq<Package>) {
    forall i | 0 <= i < |pkgs| :: 0 < pkgs[i].quantity
  }

  // The id spells out a whole field, `u:m`, a bar, and more.
  function Spelling(u: string, m: nat, v: string): string {
    u + [':'] + FormatNat(m) + ['|'] + v
  }

  /** An id that spells out no field. A bar alone does no harm. */
  ghost predicate PlainId(id: string) {
    !exists u, m: nat, v :: 0 < m && id == Spelling(u, m, v)
  }

  ghost predicate PlainIds(pkgs: seq<Package>) {
    forall i | 0 <= i < |pkgs| :: PlainId(pkgs[i].id)
  }

  // ----- Reading a key back -----

  // The colon before a run of digits is the last one.
  lemma LastColon(a: string, d: string, s: string)
    requires AllDigits(d) && s == a + [':'] + d
    ensures |a| < |s| && s[|a|] == ':' && s[..|a|] == a && s[|a| + 1..] == d
    ensures forall i | |a| < i < |s| :: s[i] != ':'
  {
    forall i | |a| < i < |s| ensures s[i] != ':' {
      assert s[i] == d[i - |a| - 1];
    }
  }

  lemma ColonField(a: string, d: string, b: string, e: string)
    requires AllDigits(d) && AllDigits(e) && a + [':'] + d == b + [':'] + e
    ensures a == b && d == e
  {
    LastColon(a, d, a + [':'] + d);
    LastColon(b, e, b + [':'] + e);
  }

  lemma FieldInjective(p: Package, q: Package)
    requires 0 < p.quantity && 0 < q.quantity && Field(p) == Field(q)
    ensures p.id == q.id && p.quantity == q.quantity
  {
    ColonField(p.id, FormatNat(p.quantity), q.id, FormatNat(q.quantity));
    ValueOfFormat(p.quantity);
    ValueOfFormat(q.quantity);
  }

  // What may follow a field: nothing, or a bar and the next field.
  predicate Follows(rest: string) {
    rest == "" || rest[0] == '|'
  }

  lemma {:induction false} FieldsFront(pkgs: seq<Package>)
    requires pkgs != []
    ensures Fields(pkgs) == "|" + (Field(pkgs[0]) + Fields(pkgs[1..])) && Follows(Fields(pkgs[1..]))
  {
    hide Field;
    var n := |pkgs| - 1;
    if n == 0 {
      assert Fields(pkgs[..0]) == "" && Fields(pkgs[1..]) == "";
    } else {
      var init, last := pkgs[..n], "|" + Field(pkgs[n]);
      FieldsFront(init);
      assert pkgs[1..][..n - 1] == init[1..];
      Assoc("|" + Field(pkgs[0]), Fields(init[1..]), last);
      Assoc("|", Field(pkgs[0]), Fields(init[1..]));
      Assoc("|", Field(pkgs[0]), Fields(init[1..]) + last);
    }
  }

  // Where a longer field begins with a shorter one and its bar, the longer one's id spells it out.
  lemma LongerSpells(p: Package, rest: string, q: Package, rest': string)
    requires 0 < p.quantity && 0 < q.quantity && Follows(rest)
    requires Field(p) + rest == Field(q) + rest' && |Field(p)| < |Field(q)|
    ensures !PlainId(q.id)
  {
    var f, g, d := Field(p), Field(q), FormatNat(q.quantity);
    var text := f + rest;
    assert text[|f|] == rest[0] == '|' && text[..|g|] == g && text[..|f|] == f;
    assert g[|f|] == '|' && g[..|f|] == f;
    assert forall i | |q.id| <= i < |g| :: g[i] == ':' || IsDigit(g[i]) by {
      assert g[|q.id|] == ':' && g[|q.id| + 1..] == d;
      assert forall i | |q.id| < i < |g| :: g[i] == d[i - |q.id| - 1];
    }
    assert |f| < |q.id|;
    var v := q.id[|f| + 1..];
    assert q.id == g[..|q.id|];
    assert q.id[..|f|] == f && q.id[|f|] == '|';
    assert q.id == f + ['|'] + v;
    assert q.id == Spelling(p.id, p.quantity, v);
  }

  lemma FirstField(p: Package, rest: string, q: Package, rest': string)
    requires 0 < p.quantity && 0 < q.quantity && Follows(rest) && Follows(rest')
    requires PlainId(p.id) && PlainId(q.id) && Field(p) + rest == Field(q) + rest'
    ensures p.id == q.id && p.quantity == q.quantity && rest == rest'
  {
    hide PlainId, Field;
    if |Field(p)| < |Field(q)| {
      LongerSpells(p, rest, q, rest');
    } else if |Field(q)| < |Field(p)| {
      LongerSpells(q, rest', p, rest);
    } else {
      assert (Field(p) + rest)[..|Field(p)|] == Field(p) && (Field(q) + rest')[..|Field(q)|] == Field(q);
      FieldInjective(p, q);
      assert rest == (Field(p) + rest)[|Field(p)|..] && rest' == (Field(q) + rest')[|Field(q)|..];
    }
  }

  lemma {:induction false} FieldsInjective(pkgs: seq<Package>, pkgs': seq<Package>)
    requires Counted(pkgs) && Counted(pkgs') && PlainIds(pkgs) && PlainIds(pkgs')
    requires Fields(pkgs) == Fields(pkgs')
    ensures Contents(pkgs) == Contents(pkgs')
  {
    hide PlainId, Field;
    if pkgs != [] && pkgs' != [] {
      FieldsFront(pkgs);
      FieldsFront(pkgs');
      hide Fields;
      var rest, rest' := Fields(pkgs[1..]), Fields(pkgs'[1..]);
      assert Fields(pkgs)[1..] == Field(pkgs[0]) + rest && Fields(pkgs')[1..] == Field(pkgs'[0]) + rest';
      FirstField(pkgs[0], rest, pkgs'[0], rest');
      FieldsInjective(pkgs[1..], pkgs'[1..]);
      ContentsFront(pkgs);
      ContentsFront(pkgs');
    }
  }

  lemma NoFields(pkgs: seq<Package>)
    ensures Fields(pkgs) == "" <==> pkgs == []
  {
  }

  lemma ContentsFront(pkgs: seq<Package>)
    requires pkgs != []
    ensures Contents(pkgs) == [(pkgs[0].id, pkgs[0].quantity)] + Contents(pkgs[1..])
  {
  }

  lemma ShorterBringsBar(a: string, r: string, b: string, s: string)
    requires |a| < |b| && Follows(r) && a + r == b + s
    ensures '|' in b
  {
    assert b[|a|] == (b + s)[|a|] == (a + r)[|a|] == r[0];
  }

  lemma BarSplits(a: string, r: string, b: string, s: string)
    requires '|' !in a && '|' !in b && Follows(r) && Follows(s) && a + r == b + s
    ensures a == b && r == s
  {
    assert |a| == |b| by {
      if |a| < |b| {
        ShorterBringsBar(a, r, b, s);
      } else if |b| < |a| {
        ShorterBringsBar(b, s, a, r);
      }
    }
    assert a == (a + r)[..|a|] && b == (b + s)[..|b|];
    assert r == (a + r)[|a|..] && s == (b + s)[|b|..];
  }

  /** Equal keys come from equal requests, for zips made of digits and ids that spell out no field. */
  lemma KeyInjective(from: string, to: string, pkgs: seq<Package>, from': string, to': string, pkgs': seq<Package>)
    requires AllDigits(from) && AllDigits(to) && AllDigits(from') && AllDigits(to')
    requires Counted(pkgs) && Counted(pkgs') && PlainIds(pkgs) && PlainIds(pkgs')
    requires Key(from, to, pkgs) == Key(from', to', pkgs')
    ensures from == from' && to == to' && Contents(pkgs) == Contents(pkgs')
  {
    hide PlainIds, Fields, Counted;
    FieldsFollow(pkgs);
    FieldsFollow(pkgs');
    Assoc(from + "|", to, Fields(pkgs));
    Assoc(from' + "|", to', Fields(pkgs'));
    Assoc(from, "|", to + Fields(pkgs));
    Assoc(from', "|", to' + Fields(pkgs'));
    BarSplits(from, "|" + (to + Fields(pkgs)), from', "|" + (to' + Fields(pkgs')));
    assert ("|" + (to + Fields(pkgs)))[1..] == to + Fields(pkgs);
    assert ("|" + (to' + Fields(pkgs')))[1..] == to' + Fields(pkgs');
    BarSplits(to, Fields(pkgs), to', Fields(pkgs'));
    FieldsInjective(pkgs, pkgs');
  }

  lemma FieldsFollow(pkgs: seq<Package>)
    ensures Follows(Fields(pkgs))
  {
    if pkgs != [] {
      FieldsFront(pkgs);
    }
  }

  // ----- Ambiguous keys -----

  lemma FieldsOfOneOrTwo(p: Package, q: Package)
    ensures Fields([p]) == "|" + Field(p) && Fields([p, q]) == "|" + Field(p) + ("|" + Field(q))
  {
    hide Field;
    var one, two := [p], [p, q];
    assert one[..0] == [] && two[..1] == one;
    assert Fields(one) == Fields(one[..0]) + ("|" + Field(p)) && Fields([]) == "";
    assert Fields(two) == Fields(two[..1]) + ("|" + Field(q));
  }

  lemma KeyOfOne(from: string, to: string, p: Package)
    ensures Key(from, to, [p]) == from + "|" + to + ("|" + Field(p))
  {
    FieldsOfOneOrTwo(p, p);
  }

  lemma KeyOfTwo(from: string, to: string, p: Package, q: Package)
    ensures Key(from, to, [p, q]) == from + "|" + to + ("|" + Field(p) + ("|" + Field(q)))
  {
    FieldsOfOneOrTwo(p, q);
  }

  // Two fields read as the one field of the id that spells out the first.
  lemma SpelledField(p: Package, q: Package, joined: Package)
    requires 0 < p.quantity && joined.id == Spelling(p.id, p.quantity, q.id) && joined.quantity == q.quantity
    ensures Field(joined) == Field(p) + ("|" + Field(q))
  {
    var d := FormatInt(q.quantity);
    assert joined.id == Field(p) + ['|'] + q.id;
    hide FormatInt, Spelling;
    Assoc(Field(p), ['|'], q.id);
    Assoc(Field(p), ['|'] + q.id, [':']);
    Assoc(Field(p), ['|'] + q.id + [':'], d);
    Assoc(['|'], q.id, [':']);
    Assoc(['|'], q.id + [':'], d);
  }

  lemma SpellingCollides(from: string, to: string, p: Package, q: Package, joined: Package)
    requires 0 < p.quantity && joined.id == Spelling(p.id, p.quantity, q.id) && joined.quantity == q.quantity
    ensures Key(from, to, [p, q]) == Key(from, to, [joined]) && |Contents([p, q])| != |Contents([joined])|
  {
    hide Key, Field;
    KeyOfTwo(from, to, p, q);
    KeyOfOne(from, to, joined);
    SpelledField(p, q, joined);
    Assoc("|", Field(p), "|" + Field(q));
  }

  /** A package's key is also that of another list exactly when its id spells out a field. */
  lemma KeyAmbiguousExactly(from: string, to: string, p: Package)
    requires 0 < p.quantity
    ensures (exists pkgs' :: Counted(pkgs') && Key(from, to, pkgs') == Key(from, to, [p])
                             && Contents(pkgs') != Contents([p]))
       <==> !PlainId(p.id)
  {
    hide Field;
    if !PlainId(p.id) {
      var u, m: nat, v :| 0 < m && p.id == Spelling(u, m, v);
      var a, b := p.(id := u, quantity := m), p.(id := v);
      SpellingCollides(from, to, a, b, p);
      assert Counted([a, b]);
    } else {
      hide PlainId;
      forall pkgs' | Counted(pkgs') && Key(from, to, pkgs') == Key(from, to, [p])
        ensures Contents(pkgs') == Contents([p])
      {
        OnlyItself(from, to, p, pkgs');
      }
    }
  }

  lemma OnlyItself(from: string, to: string, p: Package, pkgs': seq<Package>)
    requires 0 < p.quantity && PlainId(p.id) && Counted(pkgs') && Key(from, to, pkgs') == Key(from, to, [p])
    ensures Contents(pkgs') == Contents([p])
  {
    hide PlainId, Field;
    var head := from + "|" + to;
    KeyOfOne(from, to, p);
    assert Fields(pkgs') == (head + Fields(pkgs'))[|head|..] == (head + ("|" + Field(p)))[|head|..] == "|" + Field(p);
    FieldsFront(pkgs');
    var rest := Fields(pkgs'[1..]);
    assert Field(pkgs'[0]) + rest == ("|" + (Field(pkgs'[0]) + rest))[1..] == ("|" + Field(p))[1..] == Field(p) + "";
    if |Field(pkgs'[0])| < |Field(p)| {
      LongerSpells(pkgs'[0], rest, p, "");
    } else {
      assert rest == "" && Field(pkgs'[0]) == Field(p);
      NoFields(pkgs'[1..]);
      FieldInjective(pkgs'[0], p);
    }
  }

  // ----- Carts whose keys collide -----

  lemma PresetIdsHaveNoBar(id: string)
    requires '|' in id
    ensures PackagingFor(id) == Package("", 25.0, 3.0, 30.0, 0.25, 0.0, 0)
  {
    assert '|' !in "p-tee-bw-black" && '|' !in "p-tee-bw-white" && '|' !in "p-boxy-black";
    assert '|' !in "p-boxy-white" && '|' !in "p-bb-look-black" && '|' !in "p-bb-look-white";
  }

  lemma PresetsAreInsured(id: string)
    ensures var p := PackagingFor(id); 0.0 < p.insurance || (p.insurance == 0.0 && p.weight == 0.25)
  {
  }

  lemma MergedTwo(p: Package, q: Package)
    ensures Merged([p, q]) == Load(Load(EMPTY, p), q) && Merged([p]) == Load(EMPTY, p)
  {
    hide Load;
    var one, two := [p], [p, q];
    assert one[..0] == [] && two[..1] == one;
    assert Merged(one) == Load(Merged(one[..0]), p) && Merged([]) == EMPTY;
    assert Merged(two) == Load(Merged(two[..1]), q);
  }

  lemma PackedOne(a: CartRef)
    requires LineError(a).None?
    ensures Packed([a]) == Ok([Line(a)])
  {
    hide Line, LineError;
    var one := [a];
    assert one[..0] == [] && one[1..] == [];
    assert FirstError([]).None? && FirstError(one) == FirstError(one[1..]);
    assert Consolidate([]) == [] && Consolidate(one) == Absorb(Consolidate(one[..0]), a);
    AbsorbNew([], a);
    assert [] + [Line(a)] == [Line(a)];
  }

  lemma PackedTwo(a: CartRef, b: CartRef)
    requires LineError(a).None? && LineError(b).None? && a.productID != b.productID
    ensures Packed([a, b]) == Ok([Line(a), Line(b)])
  {
    hide Line, LineError;
    LineFields(a);
    PackedOne(a);
    PackedOne(b);
    var two := [a, b];
    assert two[..1] == [a] && two[1..] == [b];
    assert FirstError(two) == FirstError(two[1..]);
    assert Consolidate(two) == Absorb(Consolidate(two[..1]), b);
    AbsorbNew([Line(a)], b);
    assert [Line(a)] + [Line(b)] == [Line(a), Line(b)];
  }

  /** Every cart of two products has the key of a cart of one, whose id spells out the first product; the
      packaging accepts both, and they never ship the same. */
  lemma CollidingCarts(from: string, to: string, a: CartRef, b: CartRef)
    requires LineError(a).None? && LineError(b).None? && a.productID != b.productID
    ensures var joined := CartRef(Spelling(a.productID, a.quantity, b.productID), b.quantity);
            && Packed([a, b]).Ok? && Packed([joined]).Ok?
            && Key(from, to, Packed([a, b]).value) == Key(from, to, Packed([joined]).value)
            && Merged(Packed([a, b]).value) != Merged(Packed([joined]).value)
  {
    var joined := CartRef(Spelling(a.productID, a.quantity, b.productID), b.quantity);
    assert '|' in joined.productID;
    PackedTwo(a, b);
    PackedOne(joined);
    LineFields(a);
    LineFields(b);
    LineFields(joined);
    hide Line, Key, Merged, Spelling;
    SpellingCollides(from, to, Line(a), Line(b), Line(joined));
    MergedTwo(Line(a), Line(b));
    MergedTwo(Line(joined), Line(joined));
    ShipmentsDiffer(a, b, joined);
  }

  lemma ShipmentsDiffer(a: CartRef, b: CartRef, joined: CartRef)
    requires 0 < a.quantity && 0 < b.quantity && joined.quantity == b.quantity && '|' in joined.productID
    ensures Load(Load(EMPTY, Line(a)), Line(b)) != Load(EMPTY, Line(joined))
  {
    PresetIdsHaveNoBar(joined.productID);
    PresetsAreInsured(a.productID);
    PresetsAreInsured(b.productID);
    hide PackagingFor;
    var s, t := Load(Load(EMPTY, Line(a)), Line(b)), Load(EMPTY, Line(joined));
    Positive(Line(a).insurance, a.quantity);
    Positive(Line(b).insurance, b.quantity);
    assert t.insurance == 0.0;
    if s.insurance == 0.0 {
      assert s.volume.weight == 0.25 * a.quantity as real + 0.25 * b.quantity as real;
      assert t.volume.weight == 0.25 * b.quantity as real;
    }
  }

  lemma Positive(x: real, n: int)
    requires 0.0 <= x && 0 < n
    ensures 0.0 <= x * n as real && (0.0 < x ==> 0.0 < x * n as real)
  {
  }
}
