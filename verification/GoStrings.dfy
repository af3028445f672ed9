/** The pieces of Go's strings and strconv packages the backend relies on.

    A Go string is a byte string; here it is a Dafny string whose characters stand for bytes. */
module GoStrings {
  import opened Wrappers
  import opened Int64

  predicate IsDigit(c: char) {
    '0' <= c <= '9'
  }

  predicate AllDigits(s: string) {
    forall i | 0 <= i < |s| :: IsDigit(s[i])
  }

  lemma Assoc<T>(a: seq<T>, b: seq<T>, c: seq<T>)
    ensures (a + b) + c == a + (b + c)
  {
  }

  // ----- Splitting -----

  function IndexOf(s: string, c: char): (i: nat)
    ensures i <= |s| && c !in s[..i] && (i < |s| ==> s[i] == c)
  {
    if s == "" || s[0] == c then 0
    else
      var i := 1 + IndexOf(s[1..], c);
      assert s[..i] == [s[0]] + s[1..][..i - 1];
      i
  }

  lemma {:induction false} IndexOfJoin(a: string, c: char, b: string)
    requires c !in a
    ensures IndexOf(a + [c] + b, c) == |a|
  {
    if a == "" {
      assert a + [c] + b == [c] + b;
    } else {
      assert (a + [c] + b)[1..] == a[1..] + [c] + b;
      IndexOfJoin(a[1..], c, b);
    }
  }

  /** strings.SplitN for a one-byte separator and n >= 1. */
  function SplitN(s: string, sep: char, n: nat): (parts: seq<string>)
    requires 1 <= n
    ensures 1 <= |parts| <= n
  {
    var i := IndexOf(s, sep);
    if n == 1 || i == |s| then [s] else [s[..i]] + SplitN(s[i + 1..], sep, n - 1)
  }

  lemma SplitNJoin(a: string, sep: char, b: string, n: nat)
    requires 2 <= n && sep !in a
    ensures SplitN(a + [sep] + b, sep, n) == [a] + SplitN(b, sep, n - 1)
  {
    IndexOfJoin(a, sep, b);
    var s := a + [sep] + b;
    assert s[..|a|] == a && s[|a| + 1..] == b;
  }

  // A text of at least two parts is its first part, a separator and the rest.
  lemma SplitNApart(s: string, sep: char, n: nat)
    requires 2 <= n && 2 <= |SplitN(s, sep, n)|
    ensures var head := SplitN(s, sep, n)[0]; var rest := s[IndexOf(s, sep) + 1..];
            && IndexOf(s, sep) < |s| && s == head + [sep] + rest && sep !in head
            && SplitN(s, sep, n)[1..] == SplitN(rest, sep, n - 1)
  {
    var i := IndexOf(s, sep);
    assert s == s[..i] + [s[i]] + s[i + 1..];
  }

  lemma SplitNOnce(s: string, sep: char)
    ensures SplitN(s, sep, 1) == [s]
  {
  }

  lemma SplitNWhole(a: string, sep: char, n: nat)
    requires 1 <= n && sep !in a
    ensures SplitN(a, sep, n) == [a]
  {
  }

  /** strings.Split for a one-byte separator. */
  function Split(s: string, sep: char): (parts: seq<string>)
    ensures 1 <= |parts|
    decreases |s|
  {
    var i := IndexOf(s, sep);
    if i == |s| then [s] else [s[..i]] + Split(s[i + 1..], sep)
  }

  lemma SplitFirst(a: string, sep: char, b: string)
    requires sep !in a
    ensures Split(a + [sep] + b, sep) == [a] + Split(b, sep)
  {
    IndexOfJoin(a, sep, b);
    var s := a + [sep] + b;
    assert s[..|a|] == a && s[|a| + 1..] == b;
  }

  /** Splitting a joined text splits its two sides. */
  lemma {:induction false} SplitJoin(a: string, sep: char, b: string)
    ensures Split(a + [sep] + b, sep) == Split(a, sep) + Split(b, sep)
    decreases |a|
  {
    var i := IndexOf(a, sep);
    if i == |a| {
      SplitFirst(a, sep, b);
    } else {
      hide IndexOf, Split;
      var head, tail := a[..i], a[i + 1..];
      assert a == (head + [sep]) + tail;
      Assoc(head + [sep], tail, [sep]);
      Assoc(head + [sep], tail + [sep], b);
      SplitFirst(head, sep, tail);
      SplitFirst(head, sep, tail + [sep] + b);
      SplitJoin(tail, sep, b);
      Assoc([head], Split(tail, sep), Split(b, sep));
    }
  }

  // ----- Trimming -----

  predicate AsciiSpace(c: char) {
    c == ' ' || '\t' <= c <= '\r'
  }

  // The UTF-8 encodings of the white-space code points beyond ASCII (unicode.IsSpace).
  predicate WideSpace(s: string) {
    || (|s| == 2 && s[0] == 0xC2 as char && (s[1] == 0x85 as char || s[1] == 0xA0 as char))
    || (|s| == 3 && s[0] == 0xE1 as char && s[1] == 0x9A as char && s[2] == 0x80 as char)
    || (|s| == 3 && s[0] == 0xE2 as char && s[1] == 0x80 as char
        && (0x80 as char <= s[2] <= 0x8A as char || s[2] == 0xA8 as char || s[2] == 0xA9 as char
            || s[2] == 0xAF as char))
    || (|s| == 3 && s[0] == 0xE2 as char && s[1] == 0x81 as char && s[2] == 0x9F as char)
    || (|s| == 3 && s[0] == 0xE3 as char && s[1] == 0x80 as char && s[2] == 0x80 as char)
  }

  // How many bytes the white-space rune at the front (or the back) of s takes; 0 when there is none.
  function LeadingSpace(s: string): (n: nat)
    ensures n <= |s|
  {
    if |s| >= 1 && AsciiSpace(s[0]) then 1
    else if |s| >= 2 && WideSpace(s[..2]) then 2
    else if |s| >= 3 && WideSpace(s[..3]) then 3
    else 0
  }

  function TrailingSpace(s: string): (n: nat)
    ensures n <= |s|
  {
    if |s| >= 1 && AsciiSpace(s[|s| - 1]) then 1
    else if |s| >= 2 && WideSpace(s[|s| - 2..]) then 2
    else if |s| >= 3 && WideSpace(s[|s| - 3..]) then 3
    else 0
  }

  function TrimLeft(s: string): (r: string)
    ensures LeadingSpace(r) == 0 && |r| <= |s|
    decreases |s|
  {
    var n := LeadingSpace(s);
    if n == 0 then s else TrimLeft(s[n..])
  }

  function TrimRight(s: string): (r: string)
    ensures TrailingSpace(r) == 0 && r <= s
    decreases |s|
  {
    var n := TrailingSpace(s);
    if n == 0 then s else TrimRight(s[..|s| - n])
  }

  /** strings.TrimSpace. */
  function TrimSpace(s: string): (r: string)
    ensures TrailingSpace(r) == 0 && |r| <= |s|
    ensures LeadingSpace(s) == 0 && TrailingSpace(s) == 0 ==> r == s
  {
    TrimRight(TrimLeft(s))
  }

  // A visible ASCII byte at either end stops the trimming there.
  predicate Graphic(c: char) {
    '!' <= c <= '~'
  }

  lemma GraphicEnds(s: string)
    requires s != "" && Graphic(s[0]) && Graphic(s[|s| - 1])
    ensures TrimSpace(s) == s
  {
    GraphicFront(s);
    GraphicBack(s);
  }

  lemma WideSpaceIsNotGraphic(s: string)
    requires WideSpace(s)
    ensures s != "" && !Graphic(s[0]) && !Graphic(s[|s| - 1])
  {
  }

  lemma GraphicFront(s: string)
    requires s != "" && Graphic(s[0])
    ensures LeadingSpace(s) == 0
  {
    hide WideSpace;
    forall t | WideSpace(t) ensures t != "" && !Graphic(t[0]) { WideSpaceIsNotGraphic(t); }
  }

  lemma GraphicBack(s: string)
    requires s != "" && Graphic(s[|s| - 1])
    ensures TrailingSpace(s) == 0
  {
    hide WideSpace;
    forall t | WideSpace(t) ensures t != "" && !Graphic(t[|t| - 1]) { WideSpaceIsNotGraphic(t); }
  }

  // ----- Decimal numbers -----

  function Digit(d: nat): (c: char)
    requires d < 10
    ensures IsDigit(c) && c as int - '0' as int == d
  {
    ('0' as int + d) as char
  }

  /** strconv.Itoa / %d for a natural number: decimal digits without leading zeros. */
  function FormatNat(n: nat): (s: string)
    ensures s != "" && AllDigits(s)
  {
    if n < 10 then [Digit(n)] else FormatNat(n / 10) + [Digit(n % 10)]
  }

  function FormatInt(n: int): string {
    if n < 0 then "-" + FormatNat(-n) else FormatNat(n)
  }

  // The number a string of digits denotes.
  function Value(s: string): nat
    requires AllDigits(s)
  {
    if s == "" then 0 else Value(s[..|s| - 1]) * 10 + (s[|s| - 1] as int - '0' as int)
  }

  /** Printing and reading a natural number undo each other. */
  lemma {:induction false} ValueOfFormat(n: nat)
    ensures Value(FormatNat(n)) == n
  {
    var s := FormatNat(n);
    if n >= 10 {
      ValueOfFormat(n / 10);
      assert s[..|s| - 1] == FormatNat(n / 10);
    } else {
      assert s[..0] == "";
    }
  }

  /** strconv.ParseInt(s, 10, 64): an optional sign, at least one digit, and a 64-bit result. */
  function ParseInt64(s: string): (r: Option<int>)
    ensures r.Some? ==> InInt64(r.value)
  {
    var signed := s != "" && (s[0] == '-' || s[0] == '+');
    var digits := if signed then s[1..] else s;
    if digits == "" || !AllDigits(digits) then None
    else
      var n: int := Value(digits);
      var v := if signed && s[0] == '-' then -n else n;
      if InInt64(v) then Some(v) else None
  }

  lemma ParseOfFormat(n: int)
    requires InInt64(n)
    ensures ParseInt64(FormatInt(n)) == Some(n)
    ensures forall c | c in FormatInt(n) :: IsDigit(c) || c == '-'
  {
    var s := FormatInt(n);
    if n < 0 {
      ValueOfFormat(-n);
      assert s[1..] == FormatNat(-n);
    } else {
      ValueOfFormat(n);
      assert IsDigit(s[0]);
    }
  }
}
