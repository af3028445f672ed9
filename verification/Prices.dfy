/** Brazilian prices as text: `moneyBRL` (backend/email.go) prints integer cents, `parseBRLCents`
    (backend/shipping.go) reads the price fields of the carrier's quotes. Go's int is 64 bits wide;
    the parser's arithmetic wraps around. */
module Prices {
  import opened Wrappers
  import opened GoStrings
  import opened Int64

  // ----- Printing -----

  /** The one 64-bit value left out is the least: its negation is itself, and the recursion of the
      source never returns. */
  function MoneyBRL(cents: int): string
    requires InInt64(cents) && cents != INT64_MIN
    decreases cents < 0
  {
    if cents < 0 then "-" + MoneyBRL(-cents)
    else FormatNat(cents / 100) + "," + [Digit(cents % 100 / 10), Digit(cents % 100 % 10)]
  }

  // ----- Reading -----

  function CommasToPoints(s: string): (r: string)
    ensures |r| == |s| && forall i | 0 <= i < |s| :: r[i] == if s[i] == ',' then '.' else s[i]
  {
    seq(|s|, i requires 0 <= i < |s| => if s[i] == ',' then '.' else s[i])
  }

  // The cents written by the first two digits after the point; anything beyond them is not looked at.
  function FractionCents(frac: string): Option<nat> {
    if frac == "" then Some(0)
    else if !IsDigit(frac[0]) then None
    else
      var tens := Value([frac[0]]) * 10;
      if |frac| == 1 then Some(tens)
      else if !IsDigit(frac[1]) then None
      else Some(tens + Value([frac[1]]))
  }

  // A price whose commas are points and whose sign has been read.
  function Unsigned(s: string): Option<int> {
    var parts := SplitN(s, '.', 2);
    var frac := if |parts| == 2 then parts[1] else "";
    if !AllDigits(parts[0]) then None
    else
      var f := FractionCents(frac);
      if f.None? then None else Some(Wrap(Value(parts[0]) * 100 + f.value))
  }

  function PriceText(s: string): Option<int> {
    var t := CommasToPoints(s);
    if t == "" then None
    else if t[0] == '-' then
      var u := Unsigned(t[1..]);
      if u.None? then None else Some(Wrap(-u.value))
    else Unsigned(t)
  }

  predicate IsSeparator(c: char) {
    c == '.' || c == ','
  }

  // From `start` on: digits up to the i-th character, and there the end, or a separator with no more than the
  // end or a digit in each of the two places after it.
  predicate ReadsAsNumber(s: string, start: nat, i: nat) {
    && start <= i <= |s| && (forall j | start <= j < i :: IsDigit(s[j]))
    && (i == |s|
        || (IsSeparator(s[i])
            && (i + 1 == |s| || (IsDigit(s[i + 1]) && (i + 2 == |s| || IsDigit(s[i + 2]))))))
  }

  function SignLength(s: string): (n: nat)
    ensures n <= |s|
  {
    if s != "" && s[0] == '-' then 1 else 0
  }

  /** Exactly these texts are read as prices: not empty, an optional minus, digits, and optionally a separator
      followed by the end or by digits in the two places that count. */
  lemma PriceTextExactly(s: string)
    ensures PriceText(s).Some? <==> s != "" && exists i: nat :: ReadsAsNumber(s, SignLength(s), i)
  {
    hide Unsigned, ReadsAsNumber;
    var start := SignLength(s);
    var u := CommasToPoints(s)[start..];
    UnsignedExactly(u);
    if i: nat :| ReadsAsNumber(s, start, i) {
      ReadsShift(s, start, i);
    }
    if i: nat :| ReadsAsNumber(u, 0, i) {
      ReadsShift(s, start, start + i);
    }
    assert s != "" && start == 0 ==> u == CommasToPoints(s);
  }

  lemma ReadsShift(s: string, start: nat, i: nat)
    requires start <= |s|
    ensures ReadsAsNumber(s, start, i) <==> start <= i && ReadsAsNumber(CommasToPoints(s)[start..], 0, i - start)
  {
    var u := CommasToPoints(s)[start..];
    assert forall j | start <= j < |s| :: u[j - start] == if s[j] == ',' then '.' else s[j];
    if start <= i && ReadsAsNumber(u, 0, i - start) {
      forall j | start <= j < i ensures IsDigit(s[j]) {
        assert IsDigit(u[j - start]);
      }
    }
  }

  lemma UnsignedExactly(u: string)
    requires ',' !in u
    ensures Unsigned(u).Some? <==> exists i: nat :: ReadsAsNumber(u, 0, i)
  {
    hide Value, Wrap;
    var i := IndexOf(u, '.');
    SplitNOnce(u, '.');
    if i < |u| {
      SplitNOnce(u[i + 1..], '.');
      assert SplitN(u, '.', 2) == [u[..i], u[i + 1..]];
    } else {
      assert SplitN(u, '.', 2) == [u];
      assert u[..i] == u;
    }
    if Unsigned(u).Some? {
      assert forall j | 0 <= j < i :: IsDigit(u[..i][j]);
      assert ReadsAsNumber(u, 0, i);
    }
    if k: nat :| ReadsAsNumber(u, 0, k) {
      FirstPoint(u, k);
      assert forall j | 0 <= j < i :: u[..i][j] == u[j];
    }
  }

  // Where the digits end is where the first point is.
  lemma FirstPoint(u: string, k: nat)
    requires ',' !in u && ReadsAsNumber(u, 0, k)
    ensures k == IndexOf(u, '.')
  {
    var i := IndexOf(u, '.');
    assert forall j | 0 <= j < k :: IsDigit(u[j]) && u[j] != '.';
    assert k < |u| ==> u[k] == '.';
    assert forall j | 0 <= j < i :: u[j] == u[..i][j] && u[j] != '.';
  }

  // JSON insignificant white space.
  predicate JsonSpace(c: char) {
    c == ' ' || c == '\t' || c == '\n' || c == '\r'
  }

  function SkipJsonSpace(s: string): string {
    if s != "" && JsonSpace(s[0]) then SkipJsonSpace(s[1..]) else s
  }

  // Characters a JSON string carries as themselves (escapes and non-ASCII text are not among them).
  predicate PlainJson(s: string) {
    forall i | 0 <= i < |s| :: ' ' <= s[i] <= '~' && s[i] != '"' && s[i] != '\\'
  }

  /** json.Unmarshal into a string. What a literal with escapes or non-ASCII bytes stands for is
      left to `decode`. */
  function JsonString(decode: string -> Option<string>, raw: string): Option<string> {
    var s := SkipJsonSpace(raw);
    if s == "" || s[0] != '"' then None
    else
      var i := IndexOf(s[1..], '"');
      if i < |s[1..]| && SkipJsonSpace(s[1..][i + 1..]) == "" && PlainJson(s[1..][..i]) then Some(s[1..][..i])
      else decode(raw)
  }

  function PriceOf(decode: string -> Option<string>, raw: string): Option<int> {
    var s := TrimSpace(raw);
    if s == "" || s == "null" then None
    else if s[0] == '"' then
      var str := JsonString(decode, raw);
      if str.None? then None else PriceText(TrimSpace(str.value))
    else PriceText(s)
  }

  method ParseBRLCents(decode: string -> Option<string>, raw: string) returns (r: Option<int>)
    ensures r == PriceOf(decode, raw)
  {
    hide TrimSpace, JsonString, PriceText;
    if |raw| == 0 {
      return None;
    }
    var s := TrimSpace(raw);
    if s == "" || s == "null" {
      return None;
    }
    if s[0] == '"' {
      var str := JsonString(decode, raw);
      if str.None? {
        return None;
      }
      s := TrimSpace(str.value);
    }
    r := ParsePriceText(s);
  }

  // The part after trimming and unquoting: commas, sign, integer part, fraction.
  method ParsePriceText(text: string) returns (r: Option<int>)
    ensures r == PriceText(text)
  {
    hide Wrap, Value, FractionCents, SplitN, CommasToPoints;
    var s := CommasToPoints(text);
    if s == "" {
      return None;
    }
    var neg := false;
    if s[0] == '-' {
      neg := true;
      s := s[1..];
    }
    var parts := SplitN(s, '.', 2);
    var whole := ReadWhole(parts[0]);
    if whole.None? {
      return None;
    }
    var frac := if |parts| == 2 then parts[1] else "";
    r := AddFraction(whole.value, frac);
    if FractionCents(frac).Some? {
      WrapAdd(Value(parts[0]) * 100, FractionCents(frac).value);
    }
    if r.Some? && neg {
      r := Some(Wrap(-r.value));
    }
  }

  // The loop over the integer part, scaled to cents.
  method ReadWhole(intPart: string) returns (r: Option<int>)
    ensures r == if AllDigits(intPart) then Some(Wrap(Value(intPart) * 100)) else None
  {
    var cents := 0;
    for i := 0 to |intPart|
      invariant AllDigits(intPart[..i]) && cents == Wrap(Value(intPart[..i]))
    {
      var c := intPart[i];
      if c < '0' || c > '9' {
        return None;
      }
      assert intPart[..i + 1][..i] == intPart[..i];
      WrapLinear(Value(intPart[..i]), 10, c as int - '0' as int);
      cents := Wrap(cents * 10 + (c as int - '0' as int));
    }
    assert intPart[..|intPart|] == intPart;
    WrapLinear(Value(intPart), 100, 0);
    return Some(Wrap(cents * 100));
  }

  // The loop over the fractional part: up to two digits, padded with zeros.
  method AddFraction(whole: int, fracPart: string) returns (r: Option<int>)
    ensures var f := FractionCents(fracPart); r == if f.Some? then Some(Wrap(whole + f.value)) else None
  {
    hide Value, Wrap;
    var cents := Wrap(whole);
    WrapLinear(whole, 1, 0);
    var fracDigits := 0;
    for i := 0 to |fracPart|
      invariant fracDigits == i <= 1 && (i == 1 ==> IsDigit(fracPart[0]))
      invariant cents == Wrap(whole + (if i == 0 then 0 else Value([fracPart[0]]) * 10))
    {
      var c := fracPart[i];
      if c < '0' || c > '9' {
        return None;
      }
      DigitValue(c);
      if fracDigits == 0 {
        WrapLinear(whole, 1, Value([c]) * 10);
        cents := Wrap(cents + (c as int - '0' as int) * 10);
      } else {
        WrapLinear(whole + Value([fracPart[0]]) * 10, 1, Value([c]));
        cents := Wrap(cents + (c as int - '0' as int));
      }
      fracDigits := fracDigits + 1;
      if fracDigits == 2 {
        break;
      }
    }
    return Some(cents);
  }

  lemma DigitValue(c: char)
    requires IsDigit(c)
    ensures Value([c]) == c as int - '0' as int
  {
    assert [c][..0] == "";
  }

  // ----- What a decimal text is worth -----

  function Pow10(n: nat): (p: nat)
    ensures 0 < p
  {
    if n == 0 then 1 else 10 * Pow10(n - 1)
  }

  function Quotient(n: nat, d: nat): (q: nat)
    requires 0 < d
  {
    n / d
  }

  /** 100 times the number written `digits.fraction`, truncated to an integer. */
  function TruncatedCents(digits: string, fraction: string): nat
    requires AllDigits(digits) && AllDigits(fraction)
  {
    Quotient(Value(digits + fraction) * 100, Pow10(|fraction|))
  }

  lemma DivCancel(v: nat, d: nat, q: nat)
    requires d < 10 && 0 < q
    ensures (v * 10 + d) / (10 * q) == v / q
  {
    var m, r := v / q, v % q;
    assert v == m * q + r;
    assert v * 10 + d == m * (10 * q) + (r * 10 + d);
    assert r * 10 + d < 10 * q;
    DivUnique(v * 10 + d, 10 * q, m, r * 10 + d);
  }

  lemma DivUnique(n: nat, d: nat, q: nat, r: nat)
    requires 0 < d && n == q * d + r && r < d
    ensures n / d == q
  {
    var q', r' := n / d, n % d;
    assert n == q' * d + r';
    assert (q - q') * d == r' - r;
    if q' < q {
      MultipleAtLeast(q - q', d);
    } else if q < q' {
      MultipleAtLeast(q' - q, d);
    }
  }

  lemma MultipleAtLeast(k: nat, d: nat)
    requires 1 <= k
    ensures d <= k * d
  {
  }

  lemma ValueAppend(s: string, c: char)
    requires AllDigits(s) && IsDigit(c)
    ensures AllDigits(s + [c]) && Value(s + [c]) == Value(s) * 10 + Value([c]) && Value([c]) < 10
  {
    assert (s + [c])[..|s|] == s;
    DigitValue(c);
  }

  // Digits after the second do not matter.
  lemma {:induction false} TruncationDropsDigit(digits: string, fraction: string)
    requires AllDigits(digits) && AllDigits(fraction) && 2 < |fraction|
    ensures TruncatedCents(digits, fraction) == TruncatedCents(digits, fraction[..|fraction| - 1])
  {
    var n := |fraction|;
    var f, c := fraction[..n - 1], fraction[n - 1];
    assert digits + fraction == (digits + f) + [c];
    ValueAppend(digits + f, c);
    var v, d, q := Value(digits + f), Value([c]), Pow10(n - 3);
    assert Pow10(n - 2) == 10 * q && Pow10(n - 1) == 100 * q && Pow10(n) == 1000 * q;
    DivCancel(v, d, q);
    ScaleDown(v * 10 + d, 10 * q);
    ScaleDown(v, q);
  }

  lemma ScaleDown(n: nat, d: nat)
    requires 0 < d
    ensures n * 100 / (100 * d) == n / d
  {
    var q, r := n / d, n % d;
    assert n == q * d + r;
    assert n * 100 == q * (100 * d) + r * 100;
    DivUnique(n * 100, 100 * d, q, r * 100);
  }

  /** The parser's two digits are the truncation. */
  lemma {:induction false} TruncationIsTwoDigits(digits: string, fraction: string)
    requires AllDigits(digits) && AllDigits(fraction)
    ensures FractionCents(fraction) == Some(TruncatedCents(digits, fraction) - Value(digits) * 100)
    decreases |fraction|
  {
    if fraction == "" {
      assert digits + fraction == digits;
    } else if |fraction| == 1 {
      assert fraction == [fraction[0]];
      ValueAppend(digits, fraction[0]);
    } else if |fraction| == 2 {
      assert digits + fraction == (digits + [fraction[0]]) + [fraction[1]];
      ValueAppend(digits, fraction[0]);
      ValueAppend(digits + [fraction[0]], fraction[1]);
      assert Pow10(2) == 100;
    } else {
      TruncationDropsDigit(digits, fraction);
      TruncationIsTwoDigits(digits, fraction[..|fraction| - 1]);
    }
  }

  datatype Separator = Point | Comma

  // [-]digits[.|,digits]
  function DecimalText(neg: bool, digits: string, fraction: Option<(Separator, string)>): string {
    (if neg then "-" else "") + digits
    + (if fraction.None? then "" else (if fraction.value.0 == Point then "." else ",") + fraction.value.1)
  }

  function FractionOf(fraction: Option<(Separator, string)>): string {
    if fraction.None? then "" else fraction.value.1
  }

  function ExactCents(neg: bool, digits: string, fraction: string): int
    requires AllDigits(digits) && AllDigits(fraction)
  {
    var t: int := TruncatedCents(digits, fraction);
    if neg then -t else t
  }

  // The body of a decimal text, once its comma is a point.
  function PointText(digits: string, fraction: Option<(Separator, string)>): string {
    digits + (if fraction.None? then "" else "." + fraction.value.1)
  }

  lemma NormalizedDecimal(neg: bool, digits: string, fraction: Option<(Separator, string)>)
    requires AllDigits(digits) && AllDigits(FractionOf(fraction))
    ensures CommasToPoints(DecimalText(neg, digits, fraction))
         == (if neg then "-" else "") + PointText(digits, fraction)
  {
  }

  lemma UnsignedDecimal(digits: string, fraction: Option<(Separator, string)>)
    requires AllDigits(digits) && AllDigits(FractionOf(fraction))
    ensures Unsigned(PointText(digits, fraction)) == Some(Wrap(TruncatedCents(digits, FractionOf(fraction))))
  {
    hide Wrap, Value, TruncatedCents, FractionCents, SplitN;
    TruncationIsTwoDigits(digits, FractionOf(fraction));
    if fraction.Some? {
      assert PointText(digits, fraction) == digits + ['.'] + fraction.value.1;
      SplitNJoin(digits, '.', fraction.value.1, 2);
      SplitNOnce(fraction.value.1, '.');
    } else {
      assert PointText(digits, fraction) == digits;
      SplitNWhole(digits, '.', 2);
    }
  }

  lemma DecimalIsPlain(neg: bool, digits: string, fraction: Option<(Separator, string)>)
    requires digits != "" && AllDigits(digits) && AllDigits(FractionOf(fraction))
    ensures var t := DecimalText(neg, digits, fraction);
            && t != "" && t != "null" && t[0] != '"' && TrimSpace(t) == t && PlainJson(t)
  {
    var t := DecimalText(neg, digits, fraction);
    assert forall i | 0 <= i < |t| :: IsDigit(t[i]) || t[i] == '-' || t[i] == '.' || t[i] == ',';
    GraphicEnds(t);
  }

  // Reading a decimal text, before any quotes.
  lemma PriceTextOfDecimal(neg: bool, digits: string, fraction: Option<(Separator, string)>)
    requires digits != "" && AllDigits(digits) && AllDigits(FractionOf(fraction))
    ensures PriceText(DecimalText(neg, digits, fraction))
         == Some(Wrap(ExactCents(neg, digits, FractionOf(fraction))))
  {
    NormalizedDecimal(neg, digits, fraction);
    UnsignedDecimal(digits, fraction);
    hide Unsigned, TruncatedCents, Wrap;
    var body := PointText(digits, fraction);
    assert body[0] == digits[0];
    if neg {
      assert ("-" + body)[1..] == body;
      WrapLinear(TruncatedCents(digits, FractionOf(fraction)), -1, 0);
    } else {
      assert "" + body == body;
    }
  }

  lemma QuotedIsRead(decode: string -> Option<string>, t: string)
    requires PlainJson(t) && TrimSpace(t) == t && t != ""
    ensures PriceOf(decode, "\"" + t + "\"") == PriceText(t)
  {
    var raw := "\"" + t + "\"";
    JsonOfQuoted(decode, t);
    GraphicEnds(raw);
    hide TrimSpace, JsonString, PriceText;
    assert raw[0] == '"' && "null"[0] == 'n';
  }

  lemma JsonOfQuoted(decode: string -> Option<string>, t: string)
    requires PlainJson(t)
    ensures JsonString(decode, "\"" + t + "\"") == Some(t)
  {
    var raw := "\"" + t + "\"";
    assert raw[0] == '"' && SkipJsonSpace(raw) == raw;
    assert raw[1..] == t + ['"'] + "";
    IndexOfJoin(t, '"', "");
    assert raw[1..][..|t|] == t && raw[1..][|t| + 1..] == "";
  }

  /** Every decimal text, bare or as a JSON string, is read as 100 times its value truncated to an
      integer, wrapped to 64 bits: so exactly when that integer fits in 64 bits. */
  lemma DecimalIsReadTruncated(decode: string -> Option<string>, neg: bool, digits: string,
                               fraction: Option<(Separator, string)>)
    requires digits != "" && AllDigits(digits) && AllDigits(FractionOf(fraction))
    ensures var t := DecimalText(neg, digits, fraction); var exact := ExactCents(neg, digits, FractionOf(fraction));
            && PriceOf(decode, t) == PriceOf(decode, "\"" + t + "\"") == Some(Wrap(exact))
            && (PriceOf(decode, t) == Some(exact) <==> InInt64(exact))
  {
    hide TrimSpace, PriceText, ExactCents;
    DecimalIsPlain(neg, digits, fraction);
    PriceTextOfDecimal(neg, digits, fraction);
    QuotedIsRead(decode, DecimalText(neg, digits, fraction));
    WrapExactly(ExactCents(neg, digits, FractionOf(fraction)));
  }

  /** Printing cents and reading them back, quoted as JSON, is the identity. */
  lemma PrintedPriceReadsBack(decode: string -> Option<string>, cents: int)
    requires InInt64(cents) && cents != INT64_MIN
    ensures PriceOf(decode, "\"" + MoneyBRL(cents) + "\"") == Some(cents)
  {
    var c: nat := if cents < 0 then -cents else cents;
    var whole, d1, d0 := FormatNat(c / 100), Digit(c % 100 / 10), Digit(c % 100 % 10);
    PrintedShape(cents, c);
    PrintedWorth(c);
    hide MoneyBRL, PriceOf, TruncatedCents;
    DecimalIsReadTruncated(decode, cents < 0, whole, Some((Comma, [d1, d0])));
  }

  lemma PrintedShape(cents: int, c: nat)
    requires InInt64(cents) && cents != INT64_MIN && c == if cents < 0 then -cents else cents
    ensures MoneyBRL(cents)
         == DecimalText(cents < 0, FormatNat(c / 100), Some((Comma, [Digit(c % 100 / 10), Digit(c % 100 % 10)])))
  {
  }

  lemma PrintedWorth(c: nat)
    ensures TruncatedCents(FormatNat(c / 100), [Digit(c % 100 / 10), Digit(c % 100 % 10)]) == c
  {
    hide Value, FormatNat, TruncatedCents, Digit;
    CentsOf(c);
    ValueOfFormat(c / 100);
    TwoMoreDigits(FormatNat(c / 100), c % 100 / 10, c % 100 % 10);
  }

  lemma CentsOf(c: nat)
    ensures c / 100 * 100 + c % 100 / 10 * 10 + c % 100 % 10 == c && c % 100 / 10 < 10
  {
    var r := c % 100;
    assert c == c / 100 * 100 + r && r == r / 10 * 10 + r % 10;
  }

  lemma TwoMoreDigits(whole: string, tens: nat, units: nat)
    requires AllDigits(whole) && tens < 10 && units < 10
    ensures TruncatedCents(whole, [Digit(tens), Digit(units)]) == Value(whole) * 100 + tens * 10 + units
  {
    hide Value, Digit;
    var d1, d0 := Digit(tens), Digit(units);
    ValueAppend(whole, d1);
    ValueAppend(whole + [d1], d0);
    DigitValue(d1);
    DigitValue(d0);
    assert whole + [d1, d0] == (whole + [d1]) + [d0];
    assert Pow10(2) == 100;
  }
}
