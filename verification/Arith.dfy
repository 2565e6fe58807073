// Ceiling division and the non-linear facts the stream proofs use.
module Arith {

  function CeilDiv(a: nat, b: nat): nat
    requires b > 0
  {
    (a + b - 1) / b
  }

  lemma CeilDivBounds(a: nat, b: nat)
    requires b > 0
    ensures a <= CeilDiv(a, b) * b < a + b
  {
    var r := CeilDiv(a, b);
    assert a + b - 1 == r * b + (a + b - 1) % b;
  }

  lemma CeilDivUnique(a: nat, b: nat, r: nat)
    requires b > 0
    requires a <= r * b < a + b
    ensures r == CeilDiv(a, b)
  {
    CeilDivBounds(a, b);
    var c := CeilDiv(a, b);
    if r < c {
      MulStrict(r, c, b);
    } else if c < r {
      MulStrict(c, r, b);
    }
  }

  lemma MulMono(x: int, y: int, m: nat)
    requires x <= y
    ensures x * m <= y * m
  {
    assert (y - x) * m >= 0;
  }

  lemma MulStrict(x: int, y: int, m: nat)
    requires x < y
    ensures x * m + m <= y * m
  {
    MulMono(x + 1, y, m);
    assert (x + 1) * m == x * m + m;
  }

  lemma DivSplit(w: nat, q: nat, t: nat)
    requires t > 0
    ensures (w * t + q) / t == w + q / t
    ensures (w * t + q) % t == q % t
  {
    var x := w * t + q;
    var y := w + q / t;
    assert q == q / t * t + q % t;
    assert (w + q / t) * t == w * t + q / t * t;
    assert x == y * t + q % t;
    DivUnique(x, y, q % t, t);
  }

  lemma DivUnique(x: int, y: int, r: nat, t: nat)
    requires r < t
    requires x == y * t + r
    ensures x / t == y && x % t == r
  {
    var d, m := x / t, x % t;
    assert x == d * t + m;
    if d < y {
      MulStrict(d, y, t);
    } else if d > y {
      MulStrict(y, d, t);
    }
  }

  lemma DivLess(q: nat, n: nat, t: nat)
    requires t > 0 && q < n * t
    ensures q / t < n
  {
    if q / t >= n {
      MulMono(n, q / t, t);
    }
  }

  lemma MulAdd(x: int, y: int, m: int)
    ensures (x + y) * m == x * m + y * m
  {
  }

  /** a * b by repeated addition: keeps the loops below linear. */
  ghost function Times(a: nat, b: nat): nat {
    if a == 0 then 0 else Times(a - 1, b) + b
  }

  lemma {:induction false} TimesIsProduct(a: nat, b: nat)
    ensures Times(a, b) == a * b
  {
    if a > 0 {
      TimesIsProduct(a - 1, b);
      MulAdd(a - 1, 1, b);
    }
  }

  lemma TimesBelow(a: nat, n: nat, b: nat)
    requires a < n
    ensures Times(a, b) + b <= Times(n, b)
  {
    TimesIsProduct(a, b);
    TimesIsProduct(n, b);
    MulStrict(a, n, b);
  }
}
