/** Go's int on the deployed platforms: 64 bits, two's complement, wrapping around. */
module Int64 {
  const INT64_MIN := -0x8000_0000_0000_0000
  const INT64_MAX := 0x7FFF_FFFF_FFFF_FFFF

  predicate InInt64(n: int) {
    INT64_MIN <= n <= INT64_MAX
  }

  const TWO64 := 0x1_0000_0000_0000_0000

  function Wrap(n: int): (r: int)
    ensures InInt64(r)
  {
    (n - INT64_MIN) % TWO64 + INT64_MIN
  }

  lemma WrapExactly(n: int)
    ensures Wrap(n) == n <==> InInt64(n)
  {
  }

  lemma WrapShift(n: int, z: int)
    ensures Wrap(n + TWO64 * z) == Wrap(n)
  {
  }

  lemma WrapLinear(a: int, k: int, d: int)
    ensures Wrap(Wrap(a) * k + d) == Wrap(a * k + d)
  {
    var q := (a - INT64_MIN) / TWO64;
    assert a == Wrap(a) + TWO64 * q;
    hide Wrap;
    calc {
      a * k + d;
      (Wrap(a) + TWO64 * q) * k + d;
      Wrap(a) * k + d + TWO64 * (q * k);
    }
    WrapShift(Wrap(a) * k + d, q * k);
  }

  lemma WrapAdd(a: int, d: int)
    ensures Wrap(Wrap(a) + d) == Wrap(a + d)
  {
    WrapLinear(a, 1, d);
  }

  /** Go's integer division truncates toward zero. */
  function Quo(a: int, b: int): int
    requires 0 < b
  {
    if a < 0 then -((-a) / b) else a / b
  }
}
