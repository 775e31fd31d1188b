/** Products and quotients, one fact at a time. */
module Arithmetic {
  function Div(a: nat, b: nat): nat
    requires b > 0
  {
    a / b
  }

  function Mod(a: nat, b: nat): nat
    requires b > 0
  {
    a % b
  }

  lemma DivMod(a: nat, b: nat)
    requires b > 0
    ensures a == Div(a, b) * b + Mod(a, b) && Mod(a, b) < b
  {
  }

  lemma Wrap(n: nat, size: nat)
    ensures (n + 1) * size == n * size + size
  {
  }

  lemma Product(a: nat, a': nat, b: nat, b': nat)
    requires a <= a' && b <= b'
    ensures a * b <= a' * b'
  {
    assert a * b <= a' * b <= a' * b';
  }

  lemma Further(q: nat, p: nat, n: nat)
    requires q < p
    ensures q * n + n <= p * n
  {
    Wrap(q, n);
    Product(q + 1, p, n, n);
  }

  lemma Stretch(k: nat, size: nat)
    requires k >= 1
    ensures k * size >= size
  {
    Product(1, k, size, size);
  }

  lemma Distribute(m: nat, n: nat, size: nat)
    requires n <= m
    ensures (m - n) * size + n * size == m * size
  {
  }

  /** A number is its quotient and its remainder. */
  lemma Quotient(x: nat, q: nat, size: nat, c: nat)
    requires c < size && x == q * size + c
    ensures Div(x, size) == q && Mod(x, size) == c
  {
    hide Div, Mod;
    DivMod(x, size);
    var q' := Div(x, size);
    if q < q' { Further(q, q', size); }
    if q' < q { Further(q', q, size); }
  }

  lemma Fraction(a: nat, b: nat, c: nat)
    requires 0 < b && a <= c * b
    ensures Div(a, b) <= c
  {
    hide Div, Mod;
    DivMod(a, b);
    if c < Div(a, b) { Further(c, Div(a, b), b); }
  }

  lemma Share(x: nat, n: nat)
    requires n > 0
    ensures Div(x, n) <= x
  {
    hide Div;
    Product(x, x, 1, n);
    Fraction(x, n, x);
  }

  /** Dividing by ten or more leaves at most what dividing by ten leaves. */
  lemma Tenth(x: nat, d: nat)
    requires d >= 10
    ensures Div(x, d) <= x / 10
  {
    hide Div, Mod;
    DivMod(x, d);
    Product(Div(x, d), Div(x, d), 10, d);
  }

  /** The order of numbers is that of their quotients, and then of their remainders. */
  lemma Lexicographic(j: nat, k: nat, n: nat)
    requires n > 0 && j < k
    ensures Div(j, n) < Div(k, n) || (Div(j, n) == Div(k, n) && Mod(j, n) < Mod(k, n))
  {
    hide Div, Mod;
    DivMod(j, n);
    DivMod(k, n);
    if Div(j, n) > Div(k, n) { Further(Div(k, n), Div(j, n), n); }
  }
}
