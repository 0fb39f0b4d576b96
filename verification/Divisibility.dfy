/**
 Integer divisibility: the remainder loop computes the greatest common divisor,
 a gcd is an integer combination, and least common multiples follow from it.
 */
module Divisibility {
  function Abs(x: int): nat {
    if x < 0 then -x else x
  }

  function Gcd(a: nat, b: nat): nat
    decreases b
  {
    if b == 0 then a else Gcd(b, a % b)
  }

  function Times(d: int, k: int): int {
    d * k
  }

  ghost predicate Divides(d: int, n: int) {
    exists k: int :: n == Times(d, k)
  }

  // ---- Products, one law at a time ----

  lemma Pull(x: int, d: int, s: int, y: int, t: int)
    ensures x * (d * s) + y * (d * t) == d * (x * s + y * t)
  {
    assert x * (d * s) == d * (x * s);
    assert y * (d * t) == d * (y * t);
  }

  lemma Swap(a: int, b: int, c: int)
    ensures (a * b) * c == (a * c) * b
    ensures (a * b) * c == a * (b * c)
  {
  }

  lemma Cross(g: int, p: int, q: int)
    requires g > 0 && p > 0 && q > 0
    ensures p * (g * q) == q * (g * p) > 0
  {
    assert p * (g * q) == g * (p * q);
    assert q * (g * p) == g * (q * p);
    assert p * q > 0;
  }

  lemma SignOfFactor(g: int, s: int)
    requires g > 0 && g * s > 0
    ensures s > 0
  {
  }

  lemma SignOfProduct(x: int, y: int)
    requires x > 0 && y > 0
    ensures x * y > 0
  {
  }

  lemma CancelFactor(g: int, s: int, t: int)
    requires g != 0 && g * s == g * t
    ensures s == t
  {
    assert g * (s - t) == 0;
  }

  lemma ExactDivision(d: int, k: int)
    requires d > 0
    ensures (d * k) / d == k
  {
    var n := d * k;
    var e := k - n / d;
    assert d * e == n % d;
    assert e < 1 && e > -1 by {
      assert e >= 1 ==> d * e >= d;
      assert e <= -1 ==> d * e <= -d;
    }
  }

  lemma DivisionIsMonotone(x: int, y: int, d: int)
    requires d > 0 && x <= y
    ensures x / d <= y / d
  {
    var e := x / d - y / d;
    assert d * e == x - x % d - (y - y % d);
    assert e < 1 by {
      assert e >= 1 ==> d * e >= d;
    }
  }

  // ---- The loop ----

  /** The remainder loop: the result divides both numbers, and every divisor of both divides it. */
  method GcdLoop(l: int, r: int) returns (g: nat)
    ensures g == Gcd(Abs(l), Abs(r))
  {
    var left, right := Abs(l), Abs(r);
    while right != 0
      invariant Gcd(left, right) == Gcd(Abs(l), Abs(r))
      decreases right
    {
      left, right := right, left % right;
    }
    g := left;
  }

  /** A gcd is an integer combination of its arguments. */
  lemma {:induction false} Bezout(a: nat, b: nat) returns (x: int, y: int)
    ensures x * a + y * b == Gcd(a, b)
    decreases b
  {
    if b == 0 {
      x, y := 1, 0;
    } else {
      var u, v := Bezout(b, a % b);
      x, y := v, u - v * (a / b);
      Unroll(a, b, u, v);
    }
  }

  lemma Unroll(a: int, b: int, u: int, v: int)
    requires b > 0
    ensures v * a + (u - v * (a / b)) * b == u * b + v * (a % b)
  {
    var c := a / b;
    var e := a % b;
    assert a == b * c + e;
    assert v * (b * c + e) == v * (b * c) + v * e;
    assert (u - v * c) * b == u * b - (v * c) * b;
    Swap(v, c, b);
    Swap(v, b, c);
  }

  lemma {:induction false} GcdDivides(a: nat, b: nat) returns (s: nat, t: nat)
    ensures a == Gcd(a, b) * s && b == Gcd(a, b) * t
    ensures a > 0 || b > 0 ==> Gcd(a, b) > 0
    decreases b
  {
    if b == 0 {
      s, t := 1, 0;
    } else {
      var u, v := GcdDivides(b, a % b);
      s, t := u * (a / b) + v, u;
      var g := Gcd(a, b);
      calc {
        g * s;
        g * (u * (a / b)) + g * v;
        { Swap(g, u, a / b); }
        b * (a / b) + a % b;
        a;
      }
    }
  }

  /** Every common divisor divides the gcd. */
  lemma GcdIsGreatest(a: nat, b: nat, d: int)
    requires Divides(d, a) && Divides(d, b)
    ensures Divides(d, Gcd(a, b))
  {
    var s :| a == Times(d, s);
    var t :| b == Times(d, t);
    var x, y := Bezout(a, b);
    Pull(x, d, s, y, t);
    assert Gcd(a, b) == Times(d, x * s + y * t);
  }

  /** The specification of the loop: a common divisor that every common divisor divides. */
  lemma GcdIsGcd(a: nat, b: nat)
    ensures Divides(Gcd(a, b), a) && Divides(Gcd(a, b), b)
    ensures forall d :: Divides(d, a) && Divides(d, b) ==> Divides(d, Gcd(a, b))
    ensures a > 0 || b > 0 ==> Gcd(a, b) > 0
  {
    var s, t := GcdDivides(a, b);
    assert a == Times(Gcd(a, b), s) && b == Times(Gcd(a, b), t);
    forall d | Divides(d, a) && Divides(d, b) ensures Divides(d, Gcd(a, b)) {
      GcdIsGreatest(a, b, d);
    }
  }

  /** `c` is an integer combination of `a` and `b`. */
  ghost predicate Combination(c: int, a: int, b: int) {
    exists x: int, y: int :: Times(x, a) + Times(y, b) == c
  }

  lemma GcdCombines(a: nat, b: nat)
    ensures Combination(Gcd(a, b), a, b)
  {
    var x, y := Bezout(a, b);
    assert Times(x, a) + Times(y, b) == Gcd(a, b);
  }

  /** Prime to each other, by Bezout's identity. */
  ghost predicate Coprime(p: int, q: int) {
    Combination(1, p, q)
  }

  /** What divides a product and is prime to one factor divides the other (Euclid). */
  lemma Euclid(p: nat, q: nat, w: int, k: int) returns (j: int)
    requires Coprime(p, q) && w * q == p * k
    ensures w == p * j
  {
    var x: int, y: int :| Times(x, p) + Times(y, q) == 1;
    j := w * x + y * k;
    calc {
      w;
      w * (x * p + y * q);
      w * (x * p) + w * (y * q);
      { assert w * (y * q) == y * (w * q) == y * (p * k); assert w * (x * p) == w * (p * x); }
      w * (p * x) + y * (p * k);
      { Pull(w, p, x, y, k); }
      p * j;
    }
  }

  /** Dividing out the gcd leaves parts prime to each other. */
  lemma Reduced(n: nat, d: nat)
    requires n > 0 && d > 0
    ensures Gcd(n, d) > 0
    ensures n == Gcd(n, d) * (n / Gcd(n, d)) && d == Gcd(n, d) * (d / Gcd(n, d))
    ensures n / Gcd(n, d) > 0 && d / Gcd(n, d) > 0
    ensures Coprime(n / Gcd(n, d), d / Gcd(n, d))
  {
    var g := Gcd(n, d);
    var p, q := GcdDivides(n, d);
    SignOfFactor(g, p);
    SignOfFactor(g, q);
    ExactDivision(g, p);
    ExactDivision(g, q);
    CoprimeParts(n, d, p, q);
  }

  lemma CoprimeParts(n: nat, d: nat, p: nat, q: nat)
    requires Gcd(n, d) > 0 && n == Gcd(n, d) * p && d == Gcd(n, d) * q
    ensures Coprime(p, q)
  {
    var g := Gcd(n, d);
    var x, y := Bezout(n, d);
    Pull(x, g, p, y, q);
    CancelFactor(g, x * p + y * q, 1);
    assert Times(x, p) + Times(y, q) == 1;
  }

  /** The least common multiple, in the order of the checked operations: divide, then multiply. */
  function Lcm(a: nat, b: nat): nat
    requires Gcd(a, b) > 0
  {
    a / Gcd(a, b) * b
  }

  lemma LcmIsMultiple(a: nat, b: nat) returns (p: nat, q: nat)
    requires a > 0 && b > 0
    ensures p > 0 && q > 0 && Gcd(a, b) > 0 && Coprime(p, q)
    ensures a == Gcd(a, b) * p && b == Gcd(a, b) * q
    ensures Lcm(a, b) == p * b == q * a > 0
  {
    Reduced(a, b);
    p, q := a / Gcd(a, b), b / Gcd(a, b);
    Cross(Gcd(a, b), p, q);
  }

  lemma LcmIsPositive(a: nat, b: nat)
    requires a > 0 && b > 0
    ensures Gcd(a, b) > 0 && Lcm(a, b) > 0
  {
    var p, q := LcmIsMultiple(a, b);
  }

  /** Every common multiple is a multiple of the least one. */
  lemma LcmIsLeast(a: nat, b: nat, s: int, t: int) returns (k: int)
    requires a > 0 && b > 0 && a * s == b * t
    ensures Gcd(a, b) > 0 && a * s == Lcm(a, b) * k
  {
    var p, q := LcmIsMultiple(a, b);
    var g := Gcd(a, b);
    Swap(g, p, s);
    Swap(g, q, t);
    CancelFactor(g, p * s, q * t);
    k := Euclid(p, q, t, s);
    calc {
      b * t;
      b * (p * k);
      { Swap(b, p, k); }
      (b * p) * k;
    }
  }

  /** The least common multiple divides every common multiple. */
  lemma LcmDivides(a: nat, b: nat, w: int)
    requires a > 0 && b > 0 && Divides(a, w) && Divides(b, w)
    ensures Gcd(a, b) > 0 && Divides(Lcm(a, b), w)
  {
    var s :| w == Times(a, s);
    var t :| w == Times(b, t);
    var k := LcmIsLeast(a, b, s, t);
    assert w == Times(Lcm(a, b), k);
  }
}
