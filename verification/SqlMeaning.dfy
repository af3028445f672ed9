/** What placeholder rebinding (backend/sqldialect.go) preserves: the text a driver makes of a query and
    its arguments. */
module SqlMeaning {
  import opened GoStrings
  import opened SqlDialect

  // The number that follows the first character of s.
  function NumberAt(s: string): nat
    requires s != ""
  {
    Value(s[1..][..DigitRun(s[1..])])
  }

  /** What a query must respect for its meaning to survive: no `?` is directly followed by a digit, and
      every number directly after a `$` is zero, which stands for no argument. */
  predicate Faithful(q: string) {
    && (forall i | 0 <= i < |q| && q[i] == '?' :: i + 1 < |q| ==> !IsDigit(q[i + 1]))
    && (forall i | 0 <= i < |q| && NumberedAt(q[i..]) :: NumberAt(q[i..]) == 0)
  }

  lemma FaithfulDrop(q: string, k: nat)
    requires k <= |q| && Faithful(q)
    ensures Faithful(q[k..])
  {
    hide NumberAt, NumberedAt;
    forall i | 0 <= i < |q[k..]| && NumberedAt(q[k..][i..]) ensures NumberAt(q[k..][i..]) == 0 {
      assert q[k..][i..] == q[k + i..];
    }
    forall i | 0 <= i < |q[k..]| && q[k..][i] == '?' && i + 1 < |q[k..]| ensures !IsDigit(q[k..][i + 1]) {
      assert q[k + i] == '?';
    }
  }

  lemma RunOfDigits(q: string, k: nat)
    requires q != "" && (k == 0 || k == DigitRun(q[1..]))
    ensures forall i | 0 < i <= k :: IsDigit(q[i])
  {
    forall i | 0 < i <= k ensures IsDigit(q[i]) {
      assert q[1..][..k][i - 1] == q[i];
    }
  }

  // Whether a query is faithful, by its first placeholder or character.
  lemma FaithfulHead(q: string)
    requires q != ""
    ensures q[0] == '?' ==> (Faithful(q) <==> (|q| > 1 ==> !IsDigit(q[1])) && Faithful(q[1..]))
    ensures NumberedAt(q) ==> (Faithful(q) <==> NumberAt(q) == 0 && Faithful(q[1 + DigitRun(q[1..])..]))
    ensures q[0] != '?' && !NumberedAt(q) ==> (Faithful(q) <==> Faithful(q[1..]))
  {
    hide NumberAt, DigitRun;
    assert q[0..] == q;
    var k := if NumberedAt(q) then DigitRun(q[1..]) else 0;
    RunOfDigits(q, k);
    if Faithful(q) {
      FaithfulDrop(q, 1 + k);
    }
    if Faithful(q[1 + k..]) && (q[0] == '?' && |q| > 1 ==> !IsDigit(q[1])) && (NumberedAt(q) ==> NumberAt(q) == 0) {
      forall i | 0 <= i < |q| && q[i] == '?' && i + 1 < |q| ensures !IsDigit(q[i + 1]) {
        if k < i {
          assert q[1 + k..][i - 1 - k] == q[i] && q[1 + k..][i - k] == q[i + 1];
        }
      }
      forall i | 0 <= i < |q| && NumberedAt(q[i..]) ensures NumberAt(q[i..]) == 0 {
        assert q[i..][0] == q[i];
        if k < i {
          assert q[1 + k..][i - 1 - k..] == q[i..];
        }
      }
    }
  }

  lemma {:induction false} DigitsKept(q: string, n: nat)
    ensures var k := DigitRun(q); k <= |Renumber(q, n)| && Renumber(q, n)[..k] == q[..k]
  {
    if q != "" && IsDigit(q[0]) {
      DigitsKept(q[1..], n);
      KeepFront(q[0], Renumber(q[1..], n), q[1..], DigitRun(q[1..]));
    }
  }

  lemma KeepFront(c: char, s: string, t: string, k: nat)
    requires k <= |s| && k <= |t| && s[..k] == t[..k]
    ensures ([c] + s)[..1 + k] == ([c] + t)[..1 + k]
  {
    assert ([c] + s)[..1 + k] == [c] + s[..k] && ([c] + t)[..1 + k] == [c] + t[..k];
  }

  // A number the query itself spells out passes through the rewriting.
  lemma OwnNumberPasses(q: string, n: nat)
    requires NumberedAt(q)
    ensures var s := Renumber(q, n); var k := DigitRun(q[1..]);
            && NumberedAt(s) && DigitRun(s[1..]) == k && s[..1 + k] == q[..1 + k] && NumberAt(s) == NumberAt(q)
            && s[1 + k..] == Renumber(q[1 + k..], n) && Marks(q[1 + k..]) == Marks(q)
  {
    hide DigitRun, Value, Renumber;
    DigitsPassThrough(q[1..], n);
    DigitsKept(q[1..], n);
    RenumberHead(q[1..], n);
    var s, t, k := Renumber(q, n), Renumber(q[1..], n), DigitRun(q[1..]);
    assert s == [q[0]] + t by { RenumberCons(q, n); }
    assert s[1..] == t && q == [q[0]] + q[1..];
    DropFront(q[0], t, k);
    DropFront(q[0], q[1..], k);
    KeepFront(q[0], t, q[1..], k);
  }

  lemma {:induction false} PositionalPasses(q: string, k: nat, args: seq<string>, n: nat)
    requires k <= |q| && '?' !in q[..k] && n + Marks(q) <= |args|
    ensures Marks(q[k..]) == Marks(q)
    ensures BindPositional(q, args, n) == q[..k] + BindPositional(q[k..], args, n)
  {
    if k > 0 {
      assert q[0] == q[..k][0] && q[1..][..k - 1] == q[..k][1..];
      PositionalPasses(q[1..], k - 1, args, n);
      assert q[1..][k - 1..] == q[k..] && [q[0]] + q[1..][..k - 1] == q[..k];
    }
  }

  // The `$` and the digits after it hold no mark.
  lemma NumberHasNoMark(q: string)
    requires NumberedAt(q)
    ensures '?' !in q[..1 + DigitRun(q[1..])]
  {
    var k := DigitRun(q[1..]);
    assert q[..1 + k] == ['$'] + q[1..][..k];
  }

  lemma {:induction false} BindingFrom(q: string, args: seq<string>, n: nat)
    requires Faithful(q) && n + Marks(q) <= |args|
    ensures BindNumbered(Renumber(q, n), args) == BindPositional(q, args, n)
    decreases |q|
  {
    hide Faithful, DigitRun, Value;
    if q != "" {
      FaithfulHead(q);
      if q[0] == '?' {
        MarkReadsBack(q, n);
        BindingFrom(q[1..], args, n + 1);
      } else if NumberedAt(q) {
        var k := DigitRun(q[1..]);
        OwnNumberPasses(q, n);
        NumberHasNoMark(q);
        PositionalPasses(q, 1 + k, args, n);
        BindingFrom(q[1 + k..], args, n);
      } else {
        OtherReadsBack(q, n);
        BindingFrom(q[1..], args, n);
      }
    }
  }

  // ----- Blank arguments tell the rest apart -----

  predicate AllBlank(args: seq<string>) {
    forall i | 0 <= i < |args| :: args[i] == ""
  }

  predicate AtMost(vs: seq<nat>, count: nat) {
    forall i | 0 <= i < |vs| :: vs[i] <= count
  }

  lemma AtMostTail(v: nat, vs: seq<nat>, count: nat)
    requires AtMost([v] + vs, count)
    ensures v <= count && AtMost(vs, count)
  {
    assert ([v] + vs)[0] == v;
    forall i | 0 <= i < |vs| ensures vs[i] <= count {
      assert ([v] + vs)[i + 1] == vs[i];
    }
  }

  // How much of s is left when every numbered placeholder stands for a blank.
  function Kept(s: string): nat
    decreases |s|
  {
    if s == "" then 0
    else if NumberedAt(s) then
      var k := DigitRun(s[1..]);
      (if NumberAt(s) == 0 then 1 + k else 0) + Kept(s[1 + k..])
    else 1 + Kept(s[1..])
  }

  lemma {:induction false} KeptLength(s: string, args: seq<string>)
    requires AllBlank(args) && AtMost(Numbers(s), |args|)
    ensures |BindNumbered(s, args)| == Kept(s)
    decreases |s|
  {
    hide DigitRun, Value;
    if s != "" {
      if NumberedAt(s) {
        var k := DigitRun(s[1..]);
        assert Numbers(s) == [NumberAt(s)] + Numbers(s[1 + k..]);
        AtMostTail(NumberAt(s), Numbers(s[1 + k..]), |args|);
        KeptLength(s[1 + k..], args);
      } else {
        assert Numbers(s) == Numbers(s[1..]);
        KeptLength(s[1..], args);
      }
    }
  }

  lemma {:induction false} PositionalLength(q: string, args: seq<string>, n: nat)
    requires AllBlank(args) && n + Marks(q) <= |args|
    ensures |BindPositional(q, args, n)| == |q| - Marks(q)
  {
    if q != "" {
      PositionalLength(q[1..], args, if q[0] == '?' then n + 1 else n);
    }
  }

  lemma {:induction false} MarksBelow(q: string)
    ensures Marks(q) <= |q|
  {
    if q != "" {
      MarksBelow(q[1..]);
    }
  }

  lemma {:induction false} KeptBelow(q: string, n: nat)
    ensures Kept(Renumber(q, n)) <= |q| - Marks(q)
    ensures Kept(Renumber(q, n)) == |q| - Marks(q) <==> Faithful(q)
    decreases |q|
  {
    hide Faithful, DigitRun, Value;
    if q == "" {
      assert Faithful("") by { EmptyIsFaithful(); }
    } else {
      FaithfulHead(q);
      if q[0] == '?' {
        var extra := DigitRun(q[1..]);
        MarkSwallows(q, n);
        DigitsPassThrough(q[1..], n + 1);
        NoDigitsAhead(q);
        KeptBelow(q[1..][extra..], n + 1);
        MarksBelow(q[1..][extra..]);
        assert extra == 0 ==> q[1..][extra..] == q[1..];
      } else if NumberedAt(q) {
        OwnNumberPasses(q, n);
        KeptBelow(q[1 + DigitRun(q[1..])..], n);
      } else {
        OtherReadsBack(q, n);
        KeptBelow(q[1..], n);
      }
    }
  }

  lemma EmptyIsFaithful()
    ensures Faithful("")
  {
  }

  lemma NoDigitsAhead(q: string)
    requires q != ""
    ensures DigitRun(q[1..]) == 0 <==> (|q| > 1 ==> !IsDigit(q[1]))
  {
    assert |q| > 1 ==> q[1..][0] == q[1];
  }

  lemma {:induction false} SomeRange(vs: seq<nat>) returns (count: nat)
    ensures AtMost(vs, count)
  {
    if vs == [] {
      count := 0;
    } else {
      var rest := SomeRange(vs[1..]);
      count := if vs[0] <= rest then rest else vs[0];
      forall i | 0 < i < |vs| ensures vs[i] <= count {
        assert vs[1..][i - 1] == vs[i];
      }
    }
  }

  ghost predicate MeansTheSame(q: string) {
    forall args | Marks(q) <= |args| :: BindNumbered(Rebound(Postgres, q), args) == BindPositional(q, args, 0)
  }

  /** Rebinding preserves meaning, that is, the numbered placeholders of the rewritten query pick up the
      same arguments as the `?`s of the original whatever the arguments are, exactly when the query has
      no `?` directly followed by a digit and no `$` directly followed by a number other than zero. */
  lemma RebindPreservesMeaningExactly(q: string)
    ensures MeansTheSame(q) <==> Faithful(q)
  {
    if Faithful(q) {
      forall args | Marks(q) <= |args|
        ensures BindNumbered(Rebound(Postgres, q), args) == BindPositional(q, args, 0)
      {
        BindingFrom(q, args, 0);
      }
    } else {
      hide Faithful;
      var s := Renumber(q, 0);
      var count := SomeRange(Numbers(s));
      var args := seq(count + Marks(q), i => "");
      KeptLength(s, args);
      PositionalLength(q, args, 0);
      KeptBelow(q, 0);
      assert BindNumbered(Rebound(Postgres, q), args) != BindPositional(q, args, 0);
    }
  }

  /** In particular it is preserved for every query with no `?` and no `$` directly before a digit. */
  lemma RebindPreservesMeaning(q: string, args: seq<string>)
    requires Clean(q) && Marks(q) <= |args|
    ensures BindNumbered(Rebound(Postgres, q), args) == BindPositional(q, args, 0)
  {
    forall i | 0 <= i < |q| ensures !NumberedAt(q[i..]) {
      assert |q[i..]| > 1 ==> q[i..][1] == q[i + 1];
    }
    BindingFrom(q, args, 0);
  }
}
