/** Division with remainder by a variable. */
module Arithmetic {
  lemma MultipleBound(d: int, n: nat)
    ensures d >= 1 ==> d * n >= n
    ensures d <= -1 ==> d * n + n <= 0
  {
  }

  lemma DivModUnique(a: nat, n: nat, q: nat, r: nat)
    requires a == q * n + r && r < n
    ensures a / n == q && a % n == r
  {
    var d := q - a / n;
    assert d * n == a % n - r by {
      assert a == (a / n) * n + a % n;
      assert d * n == q * n - (a / n) * n;
    }
    MultipleBound(d, n);
  }
}

/** Products and quotients of reals, under names the solver can take as they are. */
module Reals {
  function Times(a: real, b: real): real {
    a * b
  }

  lemma Distribute(a: real, b: real, t: real)
    ensures Times(a, t) + Times(b, t) == Times(a + b, t)
  {
  }

  lemma Swap(a: real, b: real)
    ensures Times(a, b) == Times(b, a)
  {
  }

  lemma ZeroTimes(t: real)
    ensures Times(0.0, t) == 0.0
  {
  }

  lemma SmallProduct(s: real, p: real)
    requires 0.0 <= s && 0.0 <= p <= 1.0
    ensures 0.0 <= Times(s, p) <= s
  {
    assert s * p <= s * 1.0;
  }

  function Over(x: real, s: real): real
    requires s != 0.0
  {
    x / s
  }

  lemma Shrunk(q: real, x: real)
    requires q > 0.0
    ensures q * x >= 0.0 <==> x >= 0.0
    ensures q * x < q <==> x < 1.0
  {
    assert q * (x - 1.0) == q * x - q;
  }

  lemma QuotientBounds(p: real, q: real)
    requires p >= 0.0 && q > 0.0
    ensures p / q >= 0.0 && (p / q < 1.0 <==> p < q)
  {
    var x := p / q;
    assert q * x == p;
    Shrunk(q, x);
  }

  lemma OverSum(a: real, b: real, s: real)
    requires s != 0.0
    ensures Over(a, s) + Over(b, s) == Over(a + b, s) && Over(s, s) == 1.0 && Over(0.0, s) == 0.0
  {
  }

  lemma OverNonNegative(x: real, s: real)
    requires x >= 0.0 && s > 0.0
    ensures Over(x, s) >= 0.0 && Times(s, Over(x, s)) == x
  {
    QuotientBounds(x, s);
  }

  lemma Associate(a: real, b: real, c: real)
    ensures Times(Times(a, b), c) == Times(a, Times(b, c))
  {
  }
}
