/// Facts about Euclidean remainders used by the wrap-around positions of the players.
module Modulo {

  /// Adding one full length does not change the remainder.
  lemma ModShift(len: nat, x: nat)
    requires len > 0
    ensures (len + x) % len == x % len
  {
    var q, r := x / len, x % len;
    assert x == q * len + r && 0 <= r < len;
    assert len + x == (q + 1) * len + r;
    DivModUnique(len + x, len, q + 1, r);
  }

  /// The remainder is the only `r` in range with `a == q * len + r`.
  lemma DivModUnique(a: int, len: int, q: int, r: int)
    requires len > 0 && a == q * len + r && 0 <= r < len
    ensures a % len == r
  {
    var q', r' := a / len, a % len;
    assert a == q' * len + r' && 0 <= r' < len;
    assert (q - q') * len == r' - r;
    MultipleFarFromZero(q - q', len);
  }

  /// A non-zero multiple of `len` is at least `len` away from zero.
  lemma MultipleFarFromZero(d: int, len: int)
    requires len > 0
    ensures d == 0 || d * len >= len || d * len <= -len
  {
    if d >= 1 {
      AtLeastOnce(d, len);
    } else if d <= -1 {
      AtLeastOnce(-d, len);
      assert d * len == -((-d) * len);
    }
  }

  lemma AtLeastOnce(d: int, len: int)
    requires d >= 1 && len > 0
    ensures d * len >= len
  {
    assert d * len == (d - 1) * len + len;
    assert (d - 1) * len >= 0;
  }

  /// `(a + 1) % m` is `a % m + 1`, or 0 at the wrap.
  lemma ModSucc(a: nat, m: nat)
    requires m > 0
    ensures (a + 1) % m == if a % m == m - 1 then 0 else a % m + 1
  {
    var q, r := a / m, a % m;
    assert a == q * m + r;
    if r == m - 1 {
      DivModUnique(a + 1, m, q + 1, 0);
    } else {
      DivModUnique(a + 1, m, q, r + 1);
    }
  }
}
