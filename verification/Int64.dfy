/** Go's 64-bit integers. */
module Int64 {

  const MAX: int := 0x7FFF_FFFF_FFFF_FFFF

  predicate IsInt64(x: int) {
    -MAX - 1 <= x <= MAX
  }

  /** Two's complement wrap-around of Go's int64 arithmetic. */
  function Wrap(x: int): (w: int)
    ensures IsInt64(w)
    ensures IsInt64(x) ==> w == x
    ensures MAX < x <= 2 * MAX + 1 ==> w == x - (2 * MAX + 2)
  {
    (x + MAX + 1) % (2 * MAX + 2) - MAX - 1
  }

  lemma WrapAdds(a: int, b: int)
    ensures Wrap(Wrap(a) + b) == Wrap(a + b)
  {
    var n := 2 * MAX + 2;
    var q := (a + MAX + 1) / n;
    assert Wrap(a) == a - n * q;
    ModuloShift(a + b + MAX + 1, q, n);
  }

  lemma ModuloShift(x: int, q: int, n: nat)
    requires n > 0
    ensures (x - n * q) % n == x % n
  {
    var d := (x - n * q) / n;
    assert x == n * (d + q) + (x - n * q) % n;
    Quotient(x, d + q, (x - n * q) % n, n);
  }

  lemma Quotient(x: int, d: int, rest: nat, n: nat)
    requires n > 0 && x == n * d + rest && rest < n
    ensures x % n == rest
  {
    var e := x / n - d;
    assert n * e == n * (x / n) - n * d;
    Multiples(n, e);
  }

  lemma Multiples(n: nat, e: int)
    ensures e >= 1 ==> n * e >= n
    ensures e <= -1 ==> n * e + n <= 0
  {
    if e >= 1 {
      assert n * (e - 1) >= 0;
    } else {
      assert n * (-e - 1) >= 0 || e == 0;
    }
  }

  lemma WrapDoubles(x: int)
    ensures Wrap(2 * Wrap(x)) == Wrap(2 * x)
  {
    WrapAdds(x, Wrap(x));
    WrapAdds(x, x);
    hide Wrap;
  }

  /** In plain numbers: the result is a 64-bit integer that differs from the argument by a multiple of 2^64. */
  lemma WrapIsModular(x: int)
    ensures -9_223_372_036_854_775_808 <= Wrap(x) <= 9_223_372_036_854_775_807
    ensures (x - Wrap(x)) % 18_446_744_073_709_551_616 == 0
  {
    var n := 18_446_744_073_709_551_616;
    var q := (x + MAX + 1) / n;
    assert x - Wrap(x) == n * q;
    ModuloShift(n * q, q, n);
  }
}
