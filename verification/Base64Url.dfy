/** base64.RawURLEncoding: the URL-safe alphabet of section 5 of RFC 4648, without the padding
    (section 3.2). Like Go's decoder, Decode skips carriage returns and line feeds and does not
    insist that the unused low bits of the last character are zero. */
module Base64Url {
  import opened Wrappers
  import opened GoStrings

  predicate IsBytes(s: string) {
    forall i | 0 <= i < |s| :: s[i] as int < 256
  }

  function Symbol(n: nat): (c: char)
    requires n < 64
  {
    if n < 26 then ('A' as int + n) as char
    else if n < 52 then ('a' as int + (n - 26)) as char
    else if n < 62 then ('0' as int + (n - 52)) as char
    else if n == 62 then '-'
    else '_'
  }

  predicate IsSymbol(c: char) {
    'A' <= c <= 'Z' || 'a' <= c <= 'z' || '0' <= c <= '9' || c == '-' || c == '_'
  }

  function Index(c: char): (n: nat)
    requires IsSymbol(c)
    ensures n < 64
  {
    if 'A' <= c <= 'Z' then c as int - 'A' as int
    else if 'a' <= c <= 'z' then 26 + (c as int - 'a' as int)
    else if '0' <= c <= '9' then 52 + (c as int - '0' as int)
    else if c == '-' then 62
    else 63
  }

  lemma IndexOfSymbol(n: nat)
    requires n < 64
    ensures IsSymbol(Symbol(n)) && Index(Symbol(n)) == n
  {
  }

  predicate AllSymbols(s: string) {
    forall i | 0 <= i < |s| :: IsSymbol(s[i])
  }

  // Three bytes are four groups of six bits ...
  function Group0(b0: nat): (n: nat)
    requires b0 < 256
    ensures n < 64
  {
    b0 / 4
  }

  function Group1(b0: nat, b1: nat): (n: nat)
    requires b0 < 256 && b1 < 256
    ensures n < 64
  {
    b0 % 4 * 16 + b1 / 16
  }

  function Group2(b1: nat, b2: nat): (n: nat)
    requires b1 < 256 && b2 < 256
    ensures n < 64
  {
    b1 % 16 * 4 + b2 / 64
  }

  function Group3(b2: nat): (n: nat)
    requires b2 < 256
    ensures n < 64
  {
    b2 % 64
  }

  // ... and four groups of six bits are three bytes.
  function Byte0(i0: nat, i1: nat): (b: nat)
    requires i0 < 64 && i1 < 64
    ensures b < 256
  {
    i0 * 4 + i1 / 16
  }

  function Byte1(i1: nat, i2: nat): (b: nat)
    requires i1 < 64 && i2 < 64
    ensures b < 256
  {
    i1 % 16 * 16 + i2 / 4
  }

  function Byte2(i2: nat, i3: nat): (b: nat)
    requires i2 < 64 && i3 < 64
    ensures b < 256
  {
    i2 % 4 * 64 + i3
  }

  lemma RegroupBits(b0: nat, b1: nat, b2: nat)
    requires b0 < 256 && b1 < 256 && b2 < 256
    ensures Byte0(Group0(b0), Group1(b0, b1)) == b0
    ensures Byte1(Group1(b0, b1), Group2(b1, b2)) == b1
    ensures Byte2(Group2(b1, b2), Group3(b2)) == b2
    ensures Group2(0, 0) == Group3(0) == 0
  {
  }

  // A last group of one or two bytes is padded with zero bits and only its leading symbols are written.
  function EncodeBlock(b0: nat, b1: nat, b2: nat): (s: string)
    requires b0 < 256 && b1 < 256 && b2 < 256
    ensures |s| == 4
  {
    [Symbol(Group0(b0)), Symbol(Group1(b0, b1)), Symbol(Group2(b1, b2)), Symbol(Group3(b2))]
  }

  /** The digits are A-Z, a-z, 0-9, - and _ in that order (table 2 in section 5 of RFC 4648). */
  lemma SymbolTable(n: nat)
    requires n < 64
    ensures n < 26 ==> Symbol(n) as int == 'A' as int + n
    ensures 26 <= n < 52 ==> Symbol(n) as int == 'a' as int + n - 26
    ensures 52 <= n < 62 ==> Symbol(n) as int == '0' as int + n - 52
    ensures n == 62 ==> Symbol(n) == '-'
    ensures n == 63 ==> Symbol(n) == '_'
  {
  }

  /** A block writes the 24-bit number of its three bytes, first byte highest, in base 64. */
  lemma BlockIsBase64(b0: nat, b1: nat, b2: nat)
    requires b0 < 256 && b1 < 256 && b2 < 256
    ensures exists i0: nat, i1: nat, i2: nat, i3: nat | i0 < 64 && i1 < 64 && i2 < 64 && i3 < 64 ::
              && EncodeBlock(b0, b1, b2) == [Symbol(i0), Symbol(i1), Symbol(i2), Symbol(i3)]
              && i0 * 262144 + i1 * 4096 + i2 * 64 + i3 == b0 * 65536 + b1 * 256 + b2
  {
    hide Symbol;
    var i0, i1, i2, i3 := Group0(b0), Group1(b0, b1), Group2(b1, b2), Group3(b2);
    assert i0 * 4096 + i1 * 64 == b0 * 1024 + b1 / 16 * 64;
    assert i2 * 64 + i3 == b1 % 16 * 256 + b2;
    assert EncodeBlock(b0, b1, b2) == [Symbol(i0), Symbol(i1), Symbol(i2), Symbol(i3)];
  }

  function Encode(b: string): (s: string)
    requires IsBytes(b)
  {
    if b == "" then ""
    else if |b| == 1 then EncodeBlock(b[0] as int, 0, 0)[..2]
    else if |b| == 2 then EncodeBlock(b[0] as int, b[1] as int, 0)[..3]
    else EncodeBlock(b[0] as int, b[1] as int, b[2] as int) + Encode(b[3..])
  }

  function SkipNewlines(s: string): string {
    if s == "" then ""
    else (if s[0] == '\r' || s[0] == '\n' then "" else [s[0]]) + SkipNewlines(s[1..])
  }

  function DecodeBlock(c0: char, c1: char, c2: char, c3: char): (b: string)
    requires IsSymbol(c0) && IsSymbol(c1) && IsSymbol(c2) && IsSymbol(c3)
    ensures |b| == 3
  {
    var i0, i1, i2, i3 := Index(c0), Index(c1), Index(c2), Index(c3);
    [Byte0(i0, i1) as char, Byte1(i1, i2) as char, Byte2(i2, i3) as char]
  }

  function DecodeSymbols(s: string): (b: string)
    requires AllSymbols(s)
  {
    if |s| < 2 then ""
    else if |s| == 2 then DecodeBlock(s[0], s[1], Symbol(0), Symbol(0))[..1]
    else if |s| == 3 then DecodeBlock(s[0], s[1], s[2], Symbol(0))[..2]
    else DecodeBlock(s[0], s[1], s[2], s[3]) + DecodeSymbols(s[4..])
  }

  function Decode(s: string): Option<string> {
    var t := SkipNewlines(s);
    if AllSymbols(t) && |t| % 4 != 1 then Some(DecodeSymbols(t)) else None
  }

  lemma BlockSymbols(b0: nat, b1: nat, b2: nat)
    requires b0 < 256 && b1 < 256 && b2 < 256
    ensures AllSymbols(EncodeBlock(b0, b1, b2))
  {
    hide IsSymbol, Symbol, Group0, Group1, Group2, Group3;
    IndexOfSymbol(Group0(b0));
    IndexOfSymbol(Group1(b0, b1));
    IndexOfSymbol(Group2(b1, b2));
    IndexOfSymbol(Group3(b2));
  }

  lemma {:induction false} EncodeSymbols(b: string)
    requires IsBytes(b)
    ensures AllSymbols(Encode(b)) && |Encode(b)| % 4 != 1
  {
    hide EncodeBlock, IsSymbol;
    if |b| == 1 {
      BlockSymbols(b[0] as int, 0, 0);
    } else if |b| == 2 {
      BlockSymbols(b[0] as int, b[1] as int, 0);
    } else if |b| >= 3 {
      BlockSymbols(b[0] as int, b[1] as int, b[2] as int);
      EncodeSymbols(b[3..]);
    }
  }

  lemma {:induction false} SymbolsAreNotSkipped(s: string)
    requires AllSymbols(s)
    ensures SkipNewlines(s) == s
  {
    if s != "" {
      assert IsSymbol(s[0]);
      SymbolsAreNotSkipped(s[1..]);
    }
  }

  // Decoding a block gives its bytes back; without its last symbols, it still gives the first bytes.
  /** Every three bytes become four symbols, and one or two last bytes two or three: nothing is padded. */
  lemma {:induction false} EncodedLength(b: string)
    requires IsBytes(b)
    ensures |Encode(b)| == (4 * |b| + 2) / 3
    ensures 3 <= |b| ==> Encode(b)[..4] == EncodeBlock(b[0] as int, b[1] as int, b[2] as int)
                         && Encode(b)[4..] == Encode(b[3..])
    ensures |b| == 2 ==> Encode(b) == EncodeBlock(b[0] as int, b[1] as int, 0)[..3]
    ensures |b| == 1 ==> Encode(b) == EncodeBlock(b[0] as int, 0, 0)[..2]
  {
    hide EncodeBlock;
    if 3 <= |b| {
      EncodedLength(b[3..]);
    }
  }

  lemma BlockRoundTrip(b0: nat, b1: nat, b2: nat)
    requires b0 < 256 && b1 < 256 && b2 < 256
    ensures var s := EncodeBlock(b0, b1, b2);
            AllSymbols(s) && DecodeBlock(s[0], s[1], s[2], s[3]) == [b0 as char, b1 as char, b2 as char]
    ensures b2 == 0 ==> EncodeBlock(b0, b1, b2)[3] == Symbol(0)
    ensures b1 == b2 == 0 ==> EncodeBlock(b0, b1, b2)[2] == Symbol(0)
  {
    hide Symbol, IsSymbol, Index, Group0, Group1, Group2, Group3, Byte0, Byte1, Byte2;
    RegroupBits(b0, b1, b2);
    IndexOfSymbol(Group0(b0));
    IndexOfSymbol(Group1(b0, b1));
    IndexOfSymbol(Group2(b1, b2));
    IndexOfSymbol(Group3(b2));
  }

  lemma {:induction false} DecodeOfEncodeSymbols(b: string)
    requires IsBytes(b)
    ensures AllSymbols(Encode(b)) && DecodeSymbols(Encode(b)) == b
  {
    hide EncodeBlock, DecodeBlock, IsSymbol, Symbol;
    EncodeSymbols(b);
    if |b| == 1 {
      BlockRoundTrip(b[0] as int, 0, 0);
    } else if |b| == 2 {
      BlockRoundTrip(b[0] as int, b[1] as int, 0);
    } else if |b| >= 3 {
      BlockRoundTrip(b[0] as int, b[1] as int, b[2] as int);
      DecodeOfEncodeSymbols(b[3..]);
      assert Encode(b)[4..] == Encode(b[3..]);
    }
  }

  /** Decoding undoes encoding, on every byte string. */
  lemma DecodeOfEncode(b: string)
    requires IsBytes(b)
    ensures Decode(Encode(b)) == Some(b)
    ensures AllSymbols(Encode(b))
  {
    EncodeSymbols(b);
    SymbolsAreNotSkipped(Encode(b));
    DecodeOfEncodeSymbols(b);
  }

  /** A text with a byte outside the alphabet, other than a line break, is never decoded. */
  lemma {:induction false} ForeignByteRejected(s: string, i: nat)
    requires i < |s| && !IsSymbol(s[i]) && s[i] != '\r' && s[i] != '\n'
    ensures Decode(s) == None
  {
    ForeignByteSurvives(s, i);
  }

  lemma {:induction false} ForeignByteSurvives(s: string, i: nat)
    requires i < |s| && !IsSymbol(s[i]) && s[i] != '\r' && s[i] != '\n'
    ensures !AllSymbols(SkipNewlines(s))
  {
    var t := SkipNewlines(s[1..]);
    if i == 0 {
      assert SkipNewlines(s)[0] == s[0];
    } else {
      ForeignByteSurvives(s[1..], i - 1);
      var j :| 0 <= j < |t| && !IsSymbol(t[j]);
      assert SkipNewlines(s)[|SkipNewlines(s)| - |t| + j] == t[j];
    }
  }
}
