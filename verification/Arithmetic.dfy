/** Facts about products and quotients that the solver does not find by itself. */
module Arithmetic {
  lemma MulStrict(a: nat, b: nat, c: nat)
    requires a < b && c > 0
    ensures a * c < b * c
  {
  }

  lemma MulMonotone(a: nat, b: nat, c: nat)
    requires a <= b
    ensures a * c <= b * c
  {
  }

  lemma QuotientUnique(n: nat, d: nat, q: nat, r: nat)
    requires d > 0 && n == q * d + r && r < d
    ensures n / d == q && n % d == r
  {
    var q', r' := n / d, n % d;
    assert n == q' * d + r';
    if q' < q {
      MulMonotone(q' + 1, q, d);
    } else if q < q' {
      MulMonotone(q + 1, q', d);
    }
  }

  lemma DivAtMost(x: nat, d: nat)
    requires d > 0
    ensures 0 <= x / d <= x
  {
    var q := x / d;
    assert x == q * d + x % d;
    MulMonotone(1, d, q);
  }

  lemma DivCancel(a: nat, b: nat, c: nat)
    requires b > 0 && c > 0
    ensures (a * c) / (b * c) == a / b
  {
    var q, r := a / b, a % b;
    assert a == q * b + r;
    assert a * c == q * (b * c) + r * c by {
      assert (q * b + r) * c == q * b * c + r * c;
    }
    MulStrict(r, b, c);
    QuotientUnique(a * c, b * c, q, r * c);
  }

  /** Dividing by `p` turns bounds in units of `p` into plain bounds. */
  lemma DivRange(t: nat, p: nat, lo: nat, hi: nat)
    requires p > 0 && lo * p <= t < hi * p
    ensures lo <= t / p < hi
  {
    var q := t / p;
    assert t == q * p + t % p;
    if q < lo {
      MulMonotone(q + 1, lo, p);
    }
    if q >= hi {
      MulMonotone(hi, q, p);
    }
  }

  lemma DivDiv(t: nat, p: nat, q: nat)
    requires p > 0 && q > 0
    ensures t / p / q == t / (q * p)
  {
    var a, r := t / p, t % p;
    var b, s := a / q, a % q;
    assert t == a * p + r;
    assert a == b * q + s;
    assert t == b * (q * p) + (s * p + r) by {
      assert a * p == (b * q + s) * p == b * (q * p) + s * p;
    }
    assert s * p + r < q * p by {
      MulMonotone(s + 1, q, p);
    }
    QuotientUnique(t, q * p, b, s * p + r);
  }

  lemma DivMonotone(a: nat, b: nat, d: nat)
    requires a <= b && d > 0
    ensures a / d <= b / d
  {
    var p, q := a / d, b / d;
    assert a == p * d + a % d && b == q * d + b % d;
    if p > q {
      MulMonotone(q + 1, p, d);
    }
  }
}
