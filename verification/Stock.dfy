/** Product inventory (backend/products_store.go): per-size stock with a legacy total column, and
    the decrement that every paid order and every added item goes through. */
module Stock {
  import opened Sequences

  const MAX_STOCK := 10_000

  datatype Product = Product(id: string, name: string, priceCents: int, pixPriceCents: int, sizes: seq<string>,
                             stock: int, stockBySize: map<string, int>)

  type Products = map<string, Product>

  datatype StockLine = StockLine(productID: string, size: string, quantity: int)

  function Min(a: int, b: int): int {
    if a <= b then a else b
  }

  function Clip(n: int): int {
    if n < 0 then 0 else n
  }

  function Listed(p: Product, size: string): int {
    if size in p.stockBySize then p.stockBySize[size] else 0
  }

  predicate Legacy(p: Product) {
    |p.stockBySize| == 0
  }

  // The units of `size` the row can still give.
  function Available(p: Product, size: string): int {
    if Legacy(p) then p.stock else Listed(p, size)
  }

  /** One decrement of a row: the row left and the units that could not be taken. */
  function Take(p: Product, size: string, qty: int): (Product, int) {
    if qty <= 0 then (p, 0)
    else
      var applied := Min(qty, Available(p, size));
      if applied <= 0 then (p, qty - applied)
      else if Legacy(p) then (p.(stock := p.stock - applied), qty - applied)
      else (p.(stock := Clip(p.stock - applied), stockBySize := p.stockBySize[size := Listed(p, size) - applied]),
            qty - applied)
  }

  function Decremented(rows: Products, line: StockLine): Products {
    if line.productID in rows
    then rows[line.productID := Take(rows[line.productID], line.size, line.quantity).0]
    else rows
  }

  function Remainder(rows: Products, line: StockLine): int {
    if line.quantity <= 0 then 0
    else if line.productID in rows then Take(rows[line.productID], line.size, line.quantity).1
    else line.quantity
  }

  function DecrementedAll(rows: Products, lines: seq<StockLine>): Products {
    if lines == [] then rows else Decremented(DecrementedAll(rows, lines[..|lines| - 1]), lines[|lines| - 1])
  }

  class ProductsStore {
    var rows: map<string, Product>

    constructor (rows: Products)
      ensures this.rows == rows
    {
      this.rows := rows;
    }

    method DecrementStockBySize(id: string, size: string, qty: int) returns (remainder: int)
      modifies this
      ensures rows == Decremented(old(rows), StockLine(id, size, qty))
      ensures remainder == Remainder(old(rows), StockLine(id, size, qty))
      ensures qty <= 0 ==> remainder == 0 && rows == old(rows)
      ensures 0 < qty && id !in old(rows) ==> remainder == qty && rows == old(rows)
    {
      if qty <= 0 {
        return 0;
      }
      if id !in rows {
        return qty;
      }
      var total, m := rows[id].stock, rows[id].stockBySize;
      if |m| == 0 {
        var applied := qty;
        if applied > total {
          applied := total;
        }
        if applied > 0 {
          rows := rows[id := rows[id].(stock := total - applied)];
        }
        return qty - applied;
      }
      var available := if size in m then m[size] else 0;
      var applied := qty;
      if applied > available {
        applied := available;
      }
      if applied > 0 {
        m := m[size := available - applied];
        var newTotal := total - applied;
        if newTotal < 0 {
          newTotal := 0;
        }
        rows := rows[id := rows[id].(stock := newTotal, stockBySize := m)];
      }
      return qty - applied;
    }

    // The loop of decrementOrderStock over an order's lines.
    method DecrementLines(lines: seq<StockLine>)
      modifies this
      ensures rows == DecrementedAll(old(rows), lines)
    {
      for i := 0 to |lines|
        invariant rows == DecrementedAll(old(rows), lines[..i])
      {
        assert lines[..i + 1][..i] == lines[..i];
        var rem := DecrementStockBySize(lines[i].productID, lines[i].size, lines[i].quantity);
      }
      assert lines[..|lines|] == lines;
    }
  }

  // ----- Many lines are one batch -----

  predicate NonNegative(p: Product) {
    0 <= p.stock && forall s | s in p.stockBySize :: 0 <= p.stockBySize[s]
  }

  function TakeAll(p: Product, lines: seq<StockLine>): (Product, seq<int>) {
    if lines == [] then (p, [])
    else
      var n := |lines| - 1;
      var (prev, rems) := TakeAll(p, lines[..n]);
      var (next, rem) := Take(prev, lines[n].size, lines[n].quantity);
      (next, rems + [rem])
  }

  // A line counts against this row's shelf: every line of a legacy row, those of one size otherwise.
  predicate OnShelf(p: Product, size: string, line: StockLine) {
    Legacy(p) || line.size == size
  }

  function Asked(p: Product, size: string, lines: seq<StockLine>): int {
    if lines == [] then 0
    else
      var n := |lines| - 1;
      Asked(p, size, lines[..n]) + (if OnShelf(p, size, lines[n]) then Clip(lines[n].quantity) else 0)
  }

  function Missed(p: Product, size: string, lines: seq<StockLine>, rems: seq<int>): int
    requires |rems| == |lines|
  {
    if lines == [] then 0
    else
      var n := |lines| - 1;
      Missed(p, size, lines[..n], rems[..n]) + (if OnShelf(p, size, lines[n]) then rems[n] else 0)
  }

  // What every decrement leaves alone.
  predicate SameItem(p: Product, p': Product) {
    p' == p.(stock := p'.stock, stockBySize := p'.stockBySize) && p'.stockBySize.Keys == p.stockBySize.Keys
  }

  lemma TakeShelf(p: Product, size: string, qty: int, shelf: string)
    requires NonNegative(p)
    ensures var (p', rem) := Take(p, size, qty); var here := Legacy(p) || size == shelf;
            && NonNegative(p') && SameItem(p, p') && Legacy(p') == Legacy(p)
            && Available(p', shelf) == (if here then Clip(Available(p, shelf) - Clip(qty)) else Available(p, shelf))
            && (here ==> rem == Clip(Clip(qty) - Available(p, shelf)))
  {
    if p.stockBySize.Keys != {} {
      assert !Legacy(p);
    }
  }

  /** Taking lines one after another empties each shelf as one batch would: it ends at
      max(0, start - asked), and the units missed add up to max(0, asked - start). */
  lemma {:induction false} LinesAreOneBatch(p: Product, lines: seq<StockLine>, shelf: string)
    requires NonNegative(p)
    ensures var (p', rems) := TakeAll(p, lines);
            && |rems| == |lines| && NonNegative(p') && SameItem(p, p') && Legacy(p') == Legacy(p)
            && Available(p', shelf) == Clip(Available(p, shelf) - Asked(p, shelf, lines))
            && Missed(p, shelf, lines, rems) == Clip(Asked(p, shelf, lines) - Available(p, shelf))
            && 0 <= Asked(p, shelf, lines)
  {
    if lines != [] {
      var n := |lines| - 1;
      LinesAreOneBatch(p, lines[..n], shelf);
      TakeShelf(TakeAll(p, lines[..n]).0, lines[n].size, lines[n].quantity, shelf);
      var (p', rems) := TakeAll(p, lines);
      assert rems[..n] == TakeAll(p, lines[..n]).1;
    }
  }

  // ----- The total column -----

  ghost function SumOf(m: map<string, int>): int {
    if m == map[] then 0
    else
      var k :| k in m;
      m[k] + SumOf(m - {k})
  }

  lemma {:induction false} SumWithout(m: map<string, int>, k: string)
    requires k in m
    ensures SumOf(m) == m[k] + SumOf(m - {k})
    decreases |m|
  {
    var j :| j in m && SumOf(m) == m[j] + SumOf(m - {j});
    if j != k {
      SumWithout(m - {j}, k);
      SumWithout(m - {k}, j);
      assert m - {j} - {k} == m - {k} - {j};
    }
  }

  lemma SumUpdate(m: map<string, int>, k: string, v: int)
    requires k in m
    ensures SumOf(m[k := v]) == SumOf(m) - m[k] + v
  {
    SumWithout(m, k);
    SumWithout(m[k := v], k);
    assert m[k := v] - {k} == m - {k};
  }

  lemma {:induction false} SumNonNegative(m: map<string, int>)
    requires forall k | k in m :: 0 <= m[k]
    ensures 0 <= SumOf(m) && forall k | k in m :: m[k] <= SumOf(m)
    decreases |m|
  {
    forall k | k in m ensures 0 <= SumOf(m - {k}) && SumOf(m) == m[k] + SumOf(m - {k}) {
      SumNonNegative(m - {k});
      SumWithout(m, k);
    }
    if m != map[] {
      var k :| k in m;
    }
  }

  // The total column agrees with the per-size map.
  ghost predicate Balanced(p: Product) {
    Legacy(p) || p.stock == SumOf(p.stockBySize)
  }

  lemma TakeTotal(p: Product, size: string, qty: int)
    requires NonNegative(p) && !Legacy(p)
    ensures var p' := Take(p, size, qty).0;
            && p'.stock == Clip(p.stock - (SumOf(p.stockBySize) - SumOf(p'.stockBySize)))
            && 0 <= SumOf(p'.stockBySize) <= SumOf(p.stockBySize)
  {
    TakeShelf(p, size, qty, size);
    var p' := Take(p, size, qty).0;
    if size in p.stockBySize {
      SumUpdate(p.stockBySize, size, Listed(p', size));
    }
    SumNonNegative(p'.stockBySize);
  }

  /** The total column of a per-size row drops by what its sizes drop, so once it is their sum it
      stays their sum. */
  lemma {:induction false} TotalFollowsSizes(p: Product, lines: seq<StockLine>)
    requires NonNegative(p) && !Legacy(p)
    ensures var p' := TakeAll(p, lines).0;
            && p'.stock == Clip(p.stock - (SumOf(p.stockBySize) - SumOf(p'.stockBySize)))
            && 0 <= SumOf(p'.stockBySize) <= SumOf(p.stockBySize)
            && (Balanced(p) ==> Balanced(p'))
  {
    hide Take, SumOf;
    SumNonNegative(p.stockBySize);
    if lines != [] {
      var n := |lines| - 1;
      TotalFollowsSizes(p, lines[..n]);
      LinesAreOneBatch(p, lines[..n], "");
      TakeTotal(TakeAll(p, lines[..n]).0, lines[n].size, lines[n].quantity);
    }
  }

  // ----- The order of the lines does not matter -----

  lemma {:induction false} AskedExtract(p: Product, size: string, lines: seq<StockLine>, k: nat)
    requires k < |lines|
    ensures Asked(p, size, lines)
         == Asked(p, size, RemoveAt(lines, k)) + (if OnShelf(p, size, lines[k]) then Clip(lines[k].quantity) else 0)
  {
    var n := |lines| - 1;
    if k == n {
      assert RemoveAt(lines, k) == lines[..n];
    } else {
      AskedExtract(p, size, lines[..n], k);
      assert RemoveAt(lines, k)[..n - 1] == RemoveAt(lines[..n], k);
    }
  }

  lemma {:induction false} AskedPermuted(p: Product, size: string, a: seq<StockLine>, b: seq<StockLine>)
    requires multiset(a) == multiset(b)
    ensures Asked(p, size, a) == Asked(p, size, b)
    decreases |b|
  {
    if b == [] {
      assert |multiset(a)| == 0;
    } else {
      var k := MatchLast(a, b);
      AskedPermuted(p, size, RemoveAt(a, k), b[..|b| - 1]);
      AskedExtract(p, size, a, k);
    }
  }

  lemma SameShelf(p: Product, a: seq<StockLine>, b: seq<StockLine>, size: string)
    requires NonNegative(p) && multiset(a) == multiset(b)
    ensures Available(TakeAll(p, a).0, size) == Available(TakeAll(p, b).0, size)
    ensures SameItem(p, TakeAll(p, a).0) && SameItem(p, TakeAll(p, b).0)
    ensures Legacy(p) == Legacy(TakeAll(p, a).0) == Legacy(TakeAll(p, b).0)
  {
    hide TakeAll, Asked, Missed, Available, Legacy, SameItem;
    LinesAreOneBatch(p, a, size);
    LinesAreOneBatch(p, b, size);
    AskedPermuted(p, size, a, b);
  }

  /** Two orderings of the same lines leave the same row. */
  lemma LineOrderIrrelevant(p: Product, a: seq<StockLine>, b: seq<StockLine>)
    requires NonNegative(p) && multiset(a) == multiset(b)
    ensures TakeAll(p, a).0 == TakeAll(p, b).0
  {
    hide TakeAll, SumOf;
    var pa, pb := TakeAll(p, a).0, TakeAll(p, b).0;
    SameShelf(p, a, b, "");
    if Legacy(p) {
      assert pa.stockBySize == pb.stockBySize == map[];
    } else {
      forall s | s in p.stockBySize ensures pa.stockBySize[s] == pb.stockBySize[s] {
        SameShelf(p, a, b, s);
      }
      assert pa.stockBySize == pb.stockBySize;
      TotalFollowsSizes(p, a);
      TotalFollowsSizes(p, b);
    }
  }

  // ----- The whole table -----

  function LinesOf(lines: seq<StockLine>, id: string): seq<StockLine> {
    if lines == [] then []
    else
      var n := |lines| - 1;
      LinesOf(lines[..n], id) + (if lines[n].productID == id then [lines[n]] else [])
  }

  /** A sequence of lines over the table is, for each product, its own lines over its own row. */
  lemma {:induction false} ProductsAreIndependent(rows: Products, lines: seq<StockLine>, id: string)
    ensures DecrementedAll(rows, lines).Keys == rows.Keys
    ensures id in rows ==> DecrementedAll(rows, lines)[id] == TakeAll(rows[id], LinesOf(lines, id)).0
  {
    if lines != [] {
      var n := |lines| - 1;
      ProductsAreIndependent(rows, lines[..n], id);
      var mine := LinesOf(lines, id);
      if lines[n].productID == id {
        assert mine[..|mine| - 1] == LinesOf(lines[..n], id);
      } else {
        assert mine == LinesOf(lines[..n], id);
      }
    }
  }

  lemma {:induction false} DecrementsCompose(rows: Products, a: seq<StockLine>, b: seq<StockLine>)
    ensures DecrementedAll(rows, a + b) == DecrementedAll(DecrementedAll(rows, a), b)
  {
    if b == [] {
      assert a + b == a;
    } else {
      var n := |b| - 1;
      assert (a + b)[..|a + b| - 1] == a + b[..n];
      DecrementsCompose(rows, a, b[..n]);
    }
  }

  // ----- Normalizing the map -----

  function Clamp(v: int): int {
    if v < 0 then 0 else if v > MAX_STOCK then MAX_STOCK else v
  }

  function Normalized(m: map<string, int>, sizes: seq<string>): (r: map<string, int>)
    ensures r.Keys == set s | s in sizes
  {
    map s | s in sizes :: Clamp(if s in m then m[s] else 0)
  }

  method NormalizeStockBySize(m: map<string, int>, sizes: seq<string>) returns (out: map<string, int>)
    ensures out == Normalized(m, sizes)
  {
    out := map[];
    for i := 0 to |sizes|
      invariant out == Normalized(m, sizes[..i])
    {
      var v := if sizes[i] in m then m[sizes[i]] else 0;
      if v < 0 {
        v := 0;
      }
      if v > MAX_STOCK {
        v := MAX_STOCK;
      }
      out := out[sizes[i] := v];
      assert sizes[..i + 1] == sizes[..i] + [sizes[i]];
    }
    assert sizes[..|sizes|] == sizes;
  }

  /** Normalizing gives every offered size, and only those, a stock between 0 and 10000, keeps the
      values already in range, moves the others to the nearer end, and is idempotent. */
  lemma NormalizeIsProjection(m: map<string, int>, sizes: seq<string>)
    ensures var n := Normalized(m, sizes);
            && Normalized(n, sizes) == n
            && (forall s | s in n :: 0 <= n[s] <= MAX_STOCK)
            && (n == m <==> m.Keys == (set s | s in sizes) && forall s | s in m :: 0 <= m[s] <= MAX_STOCK)
            && (forall s :: s in n <==> s in sizes)
            && (forall s | s in n :: s !in m || m[s] <= 0 ==> n[s] == 0)
            && (forall s | s in n && s in m :: 0 <= m[s] <= 10_000 ==> n[s] == m[s])
            && (forall s | s in n && s in m :: 10_000 < m[s] ==> n[s] == 10_000)
  {
  }
}
