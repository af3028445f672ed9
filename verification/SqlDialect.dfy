/** Placeholder rebinding for Postgres (backend/sqldialect.go). */
module SqlDialect {
  import opened GoStrings

  datatype Dialect = Sqlite | Postgres

  // The placeholders of q, numbered from n + 1.
  function Renumber(q: string, n: nat): string {
    if q == "" then ""
    else if q[0] == '?' then "$" + FormatNat(n + 1) + Renumber(q[1..], n + 1)
    else [q[0]] + Renumber(q[1..], n)
  }

  function Rebound(d: Dialect, q: string): string {
    if d == Postgres then Renumber(q, 0) else q
  }

  function Marks(q: string): nat {
    if q == "" then 0 else (if q[0] == '?' then 1 else 0) + Marks(q[1..])
  }

  lemma {:induction false} RenumberUnmarked(q: string, n: nat)
    requires '?' !in q
    ensures Renumber(q, n) == q
  {
    if q != "" {
      RenumberUnmarked(q[1..], n);
    }
  }

  lemma {:induction false} RenumberPrefix(q: string, i: nat, n: nat)
    requires i < |q|
    ensures Renumber(q[..i + 1], n)
         == Renumber(q[..i], n) + (if q[i] == '?' then "$" + FormatNat(n + Marks(q[..i]) + 1) else [q[i]])
    ensures Marks(q[..i + 1]) == Marks(q[..i]) + (if q[i] == '?' then 1 else 0)
  {
    hide FormatNat;
    if i == 0 {
      assert q[..1] == [q[0]] && q[..0] == "";
      RenumberOne(q[0], n);
    } else {
      assert q[..i + 1][1..] == q[1..][..i] && q[..i][1..] == q[1..][..i - 1];
      RenumberPrefix(q[1..], i - 1, if q[0] == '?' then n + 1 else n);
      var head := if q[0] == '?' then "$" + FormatNat(n + 1) else [q[0]];
      var n' := if q[0] == '?' then n + 1 else n;
      Assoc(head, Renumber(q[1..][..i - 1], n'),
            if q[i] == '?' then "$" + FormatNat(n + Marks(q[..i]) + 1) else [q[i]]);
    }
  }

  lemma RenumberOne(c: char, n: nat)
    ensures Renumber([c], n) == if c == '?' then "$" + FormatNat(n + 1) else [c]
    ensures Renumber("", n) == "" && Marks([c]) == (if c == '?' then 1 else 0) && Marks("") == 0
  {
    hide FormatNat;
    assert [c][1..] == "";
    assert "$" + FormatNat(n + 1) + "" == "$" + FormatNat(n + 1);
  }

  method Rb(d: Dialect, q: string) returns (out: string)
    ensures out == Rebound(d, q)
    ensures d != Postgres ==> out == q
  {
    if d != Postgres {
      return q;
    }
    if '?' !in q {
      RenumberUnmarked(q, 0);
      return q;
    }
    out := "";
    var n := 0;
    for i := 0 to |q|
      invariant n == Marks(q[..i]) && out == Renumber(q[..i], 0)
    {
      RenumberPrefix(q, i, 0);
      var c := q[i];
      if c != '?' {
        out := out + [c];
        continue;
      }
      n := n + 1;
      out := out + "$";
      out := out + FormatNat(n);
    }
    assert q[..|q|] == q;
  }

  // ----- What the two placeholder styles mean -----

  // The run of digits at the front of s.
  function DigitRun(s: string): (k: nat)
    ensures k <= |s| && AllDigits(s[..k]) && (k < |s| ==> !IsDigit(s[k]))
  {
    if s == "" || !IsDigit(s[0]) then 0
    else
      var k := 1 + DigitRun(s[1..]);
      assert forall i | 0 < i < k :: s[..k][i] == s[1..][..k - 1][i - 1];
      k
  }

  predicate NumberedAt(s: string) {
    |s| > 1 && s[0] == '$' && IsDigit(s[1])
  }

  // The text a driver with numbered placeholders reads: $k stands for the k-th argument.
  function BindNumbered(s: string, args: seq<string>): string
    decreases |s|
  {
    if s == "" then ""
    else if NumberedAt(s) then
      var k := DigitRun(s[1..]);
      var n := Value(s[1..][..k]);
      (if 1 <= n <= |args| then args[n - 1] else s[..1 + k]) + BindNumbered(s[1 + k..], args)
    else [s[0]] + BindNumbered(s[1..], args)
  }

  // The text a driver with positional placeholders reads: each ? takes the next argument.
  function BindPositional(q: string, args: seq<string>, n: nat): string
    requires n + Marks(q) <= |args|
  {
    if q == "" then ""
    else if q[0] == '?' then args[n] + BindPositional(q[1..], args, n + 1)
    else [q[0]] + BindPositional(q[1..], args, n)
  }

  // The numbers of the placeholders of s, in order.
  function Numbers(s: string): seq<nat>
    decreases |s|
  {
    if s == "" then []
    else if NumberedAt(s) then
      var k := DigitRun(s[1..]);
      [Value(s[1..][..k])] + Numbers(s[1 + k..])
    else Numbers(s[1..])
  }

  function UpFrom(n: nat, count: nat): (r: seq<nat>)
    ensures |r| == count
    decreases count
  {
    if count == 0 then [] else [n + 1] + UpFrom(n + 1, count - 1)
  }

  /** What a query must respect for the rewriting to be faithful: no `?` and no `$` is directly
      followed by a digit. */
  predicate Clean(q: string) {
    forall i | 0 <= i < |q| - 1 && (q[i] == '?' || q[i] == '$') :: !IsDigit(q[i + 1])
  }

  lemma FormatHead(n: nat, rest: string)
    requires rest == "" || !IsDigit(rest[0])
    ensures DigitRun(FormatNat(n) + rest) == |FormatNat(n)|
  {
    DigitRunOf(FormatNat(n), rest);
  }

  lemma {:induction false} DigitRunOf(ds: string, rest: string)
    requires AllDigits(ds)
    ensures DigitRun(ds + rest) == |ds| + DigitRun(rest)
  {
    if ds == "" {
      assert ds + rest == rest;
    } else {
      assert (ds + rest)[1..] == ds[1..] + rest;
      DigitRunOf(ds[1..], rest);
    }
  }

  // The first character of a renumbered query is a digit exactly when the query's own is.
  lemma RenumberHead(q: string, n: nat)
    ensures (Renumber(q, n) != "" && IsDigit(Renumber(q, n)[0])) <==> (q != "" && IsDigit(q[0]))
  {
  }

  // A rewritten placeholder reads back as its number when no digit follows it.
  lemma MarkReadsBack(q: string, n: nat)
    requires q != "" && q[0] == '?' && (|q| > 1 ==> !IsDigit(q[1]))
    ensures var s := Renumber(q, n); var k := DigitRun(s[1..]);
            && NumberedAt(s) && k <= |s[1..]| && Value(s[1..][..k]) == n + 1
            && s[1 + k..] == Renumber(q[1..], n + 1)
  {
    hide FormatNat, Value, DigitRun;
    var digits, rest := FormatNat(n + 1), Renumber(q[1..], n + 1);
    RenumberHead(q[1..], n + 1);
    FormatHead(n + 1, rest);
    ValueOfFormat(n + 1);
    DropBoth("$", digits + rest, 0);
    Assoc("$", digits, rest);
    DropBoth(digits, rest, 0);
  }

  // Any other character stays what it was, and starts no placeholder unless it did.
  lemma OtherReadsBack(q: string, n: nat)
    requires q != "" && q[0] != '?' && !NumberedAt(q)
    ensures var s := Renumber(q, n); !NumberedAt(s) && s[1..] == Renumber(q[1..], n)
  {
    RenumberHead(q[1..], n);
  }

  lemma CleanTail(q: string)
    requires q != "" && Clean(q)
    ensures Clean(q[1..])
  {
    forall i | 0 <= i < |q[1..]| - 1 && (q[1..][i] == '?' || q[1..][i] == '$') ensures !IsDigit(q[1..][i + 1]) {
      assert q[i + 1] == q[1..][i] && q[i + 2] == q[1..][i + 1];
    }
  }

  // ----- Exactly which queries get the placeholders $1..$n -----

  lemma {:induction false} CleanNumbers(q: string, n: nat)
    requires Clean(q)
    ensures Numbers(Renumber(q, n)) == UpFrom(n, Marks(q))
  {
    if q != "" {
      CleanTail(q);
      if q[0] == '?' {
        MarkReadsBack(q, n);
        CleanNumbers(q[1..], n + 1);
      } else {
        OtherReadsBack(q, n);
        CleanNumbers(q[1..], n);
      }
    }
  }

  // The `$`s of q that are directly followed by a digit.
  function Dollars(q: string): nat {
    if q == "" then 0 else (if NumberedAt(q) then 1 else 0) + Dollars(q[1..])
  }

  // A run of digits passes through the rewriting untouched.
  lemma {:induction false} DigitsPassThrough(q: string, n: nat)
    ensures var k := DigitRun(q);
            && DigitRun(Renumber(q, n)) == k && Renumber(q, n)[k..] == Renumber(q[k..], n)
            && Marks(q[k..]) == Marks(q) && Dollars(q[k..]) == Dollars(q)
  {
    if q != "" && IsDigit(q[0]) {
      DigitsPassThrough(q[1..], n);
      var k := DigitRun(q[1..]);
      assert Renumber(q, n)[1..] == Renumber(q[1..], n);
      assert q[1 + k..] == q[1..][k..];
      assert Renumber(q, n)[1 + k..] == Renumber(q[1..], n)[k..];
    } else {
      RenumberHead(q, n);
    }
  }

  // Reading a rewritten mark swallows the digits that follow it.
  lemma MarkSwallows(q: string, n: nat)
    requires q != "" && q[0] == '?'
    ensures var s := Renumber(q, n); var k, extra := DigitRun(s[1..]), DigitRun(q[1..]);
            && NumberedAt(s) && s[1 + k..] == Renumber(q[1..][extra..], n + 1)
            && (extra > 0 ==> n + 1 < Value(s[1..][..k]))
            && (extra == 0 ==> n + 1 == Value(s[1..][..k]))
  {
    var digits, rest := FormatNat(n + 1), Renumber(q[1..], n + 1);
    DigitsPassThrough(q[1..], n + 1);
    ValueOfFormat(n + 1);
    MarkShape(digits, rest);
    ValueGrows(digits, rest[..DigitRun(rest)]);
    Assoc("$", digits, rest);
  }

  // A `$`, a number and what follows: the digits that follow extend the number.
  lemma MarkShape(digits: string, rest: string)
    requires digits != "" && AllDigits(digits)
    ensures var s := "$" + (digits + rest); var k := DigitRun(s[1..]); var extra := DigitRun(rest);
            && NumberedAt(s) && s[1 + k..] == rest[extra..]
            && s[1..][..k] == digits + rest[..extra] && (extra == 0 ==> s[1..][..k] == digits)
  {
    var s, extra := "$" + (digits + rest), DigitRun(rest);
    assert s[1..] == digits + rest;
    DigitRunOf(digits, rest);
    hide DigitRun;
    DropBoth(digits, rest, extra);
  }

  lemma DropBoth(a: string, b: string, k: nat)
    requires k <= |b|
    ensures (a + b)[..|a| + k] == a + b[..k] && (a + b)[|a| + k..] == b[k..]
  {
  }

  lemma {:induction false} ValueGrows(a: string, b: string)
    requires AllDigits(a) && AllDigits(b)
    ensures AllDigits(a + b) && Value(a) <= Value(a + b)
    ensures 0 < Value(a) && b != "" ==> Value(a) < Value(a + b)
  {
    if b == "" {
      assert a + b == a;
    } else {
      ValueGrows(a, b[..|b| - 1]);
      assert (a + b)[..|a + b| - 1] == a + b[..|b| - 1];
    }
  }

  // Every `?` and every `$` directly before a digit is read as one placeholder.
  lemma {:induction false} CountNumbers(q: string, n: nat)
    ensures |Numbers(Renumber(q, n))| == Marks(q) + Dollars(q)
    decreases |q|
  {
    if q != "" {
      var s := Renumber(q, n);
      if q[0] == '?' {
        CountNumbersMark(q, n);
        CountNumbers(q[1..][DigitRun(q[1..])..], n + 1);
      } else {
        CountNumbersOther(q, n);
        CountNumbers(q[1 + (if NumberedAt(q) then DigitRun(q[1..]) else 0)..], n);
      }
    }
  }

  lemma CountNumbersMark(q: string, n: nat)
    requires q != "" && q[0] == '?'
    ensures var rest := q[1..][DigitRun(q[1..])..];
            && |Numbers(Renumber(q, n))| == 1 + |Numbers(Renumber(rest, n + 1))|
            && Marks(rest) + 1 == Marks(q) && Dollars(rest) == Dollars(q)
  {
    hide Renumber, FormatNat, Value, DigitRun;
    MarkSwallows(q, n);
    DigitsPassThrough(q[1..], n + 1);
  }

  lemma CountNumbersOther(q: string, n: nat)
    requires q != "" && q[0] != '?'
    ensures var placed := NumberedAt(q); var k := if placed then DigitRun(q[1..]) else 0;
            && |Numbers(Renumber(q, n))| == (if placed then 1 else 0) + |Numbers(Renumber(q[1 + k..], n))|
            && Marks(q[1 + k..]) == Marks(q) && Dollars(q[1 + k..]) + (if placed then 1 else 0) == Dollars(q)
  {
    hide DigitRun, Value, Renumber, FormatNat;
    var s, t := Renumber(q, n), Renumber(q[1..], n);
    assert s == [q[0]] + t by { RenumberCons(q, n); }
    RenumberHead(q[1..], n);
    assert s[1..] == t && q == [q[0]] + q[1..];
    if NumberedAt(q) {
      DigitsPassThrough(q[1..], n);
      DropFront(q[0], t, DigitRun(q[1..]));
      DropFront(q[0], q[1..], DigitRun(q[1..]));
    }
  }

  lemma RenumberCons(q: string, n: nat)
    requires q != "" && q[0] != '?'
    ensures Renumber(q, n) == [q[0]] + Renumber(q[1..], n)
  {
  }

  lemma DropFront(c: char, s: string, k: nat)
    requires k <= |s|
    ensures ([c] + s)[1 + k..] == s[k..]
  {
  }

  lemma {:induction false} UncleanNumbers(q: string, n: nat)
    requires Dollars(q) == 0 && !Clean(q)
    ensures Numbers(Renumber(q, n)) != UpFrom(n, Marks(q))
  {
    var s := Renumber(q, n);
    if q[0] == '?' {
      MarkSwallows(q, n);
      if DigitRun(q[1..]) == 0 {
        UncleanTail(q);
        UncleanNumbers(q[1..], n + 1);
        var rest, want := Numbers(Renumber(q[1..], n + 1)), UpFrom(n + 1, Marks(q[1..]));
        assert q[1..][0..] == q[1..];
        assert Numbers(s) == [n + 1] + rest;
        assert ([n + 1] + rest)[1..] == rest && ([n + 1] + want)[1..] == want;
      } else {
        assert UpFrom(n, Marks(q))[0] == n + 1;
      }
    } else {
      UncleanTail(q);
      assert s[1..] == Renumber(q[1..], n);
      RenumberHead(q[1..], n);
      UncleanNumbers(q[1..], n);
    }
  }

  lemma UncleanTail(q: string)
    requires q != "" && !Clean(q) && !NumberedAt(q)
    requires q[0] == '?' ==> DigitRun(q[1..]) == 0
    ensures !Clean(q[1..])
  {
    var i :| 0 <= i < |q| - 1 && (q[i] == '?' || q[i] == '$') && IsDigit(q[i + 1]);
    assert q[1..][0] == q[1];
    assert 0 < i;
    assert q[1..][i - 1] == q[i] && q[1..][i] == q[i + 1];
  }

  lemma {:induction false} CleanDollars(q: string)
    requires Clean(q)
    ensures Dollars(q) == 0
  {
    if q != "" {
      CleanTail(q);
      CleanDollars(q[1..]);
    }
  }

  /** The rewritten query's placeholders are $1..$n, in order, exactly when no `?` and no `$` of
      the original is directly followed by a digit. */
  lemma PlaceholdersAreOneToN(q: string)
    ensures Numbers(Rebound(Postgres, q)) == UpFrom(0, Marks(q)) <==> Clean(q)
  {
    if Clean(q) {
      CleanNumbers(q, 0);
    } else {
      CountNumbers(q, 0);
      if Dollars(q) == 0 {
        UncleanNumbers(q, 0);
      }
    }
  }

  lemma {:induction false} NoMarksLeft(q: string, n: nat)
    ensures '?' !in Renumber(q, n)
  {
    if q != "" {
      NoMarksLeft(q[1..], if q[0] == '?' then n + 1 else n);
    }
  }

  /** Rebinding twice is rebinding once, in either dialect. */
  lemma RebindIdempotent(d: Dialect, q: string)
    ensures Rebound(d, Rebound(d, q)) == Rebound(d, q)
    ensures '?' !in q ==> Rebound(d, q) == q
  {
    NoMarksLeft(q, 0);
    RenumberUnmarked(Renumber(q, 0), 0);
    if '?' !in q {
      RenumberUnmarked(q, 0);
    }
  }
}
