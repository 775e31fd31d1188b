/** The parameters of Punycode, and its variable-length integers: section 3.3 of RFC 3492. */
module Bootstring {
  import opened Wrappers
  import opened Arithmetic

  const BASE: nat := 36
  const TMIN: nat := 1
  const TMAX: nat := 26
  const SKEW: nat := 38
  const DAMP: nat := 700
  const INITIAL_BIAS: nat := 72
  const INITIAL_N: nat := 128

  const DELIMITER: CodePoint := 45

  type CodePoint = c: nat | c < 0x110000
  type Text = seq<CodePoint>

  /** A Bootstring digit. */
  type Digit = d: nat | d < BASE

  predicate Basic(c: CodePoint) {
    c < INITIAL_N
  }

  function DigitToChar(d: Digit): (c: CodePoint)
    ensures DigitOf(c) == Some(d) && Basic(c) && c != DELIMITER
    ensures 97 <= c < 123 || 48 <= c < 58  // lower-case letters and digits
  {
    if d < 26 then 97 + d else 48 + (d - 26)
  }

  /** The digit-value of a code point, which ignores case: section 5 of RFC 3492. */
  function DigitOf(c: CodePoint): Option<Digit> {
    if 97 <= c < 123 then Some(c - 97)
    else if 65 <= c < 91 then Some(c - 65)
    else if 48 <= c < 58 then Some(c - 48 + 26)
    else None
  }

  /** Bias adaptation: section 6.1 of RFC 3492. */
  function Adapt(delta: nat, numPoints: nat, firstTime: bool): nat
    requires numPoints > 0
  {
    var damped := if firstTime then delta / DAMP else delta / 2;
    Shrink(damped + Div(damped, numPoints), 0)
  }

  function Shrink(delta: nat, k: nat): nat {
    if delta > ((BASE - TMIN) * TMAX) / 2 then Shrink(delta / (BASE - TMIN), k + BASE)
    else k + Div((BASE - TMIN + 1) * delta, delta + SKEW)
  }

  function Threshold(k: nat, bias: nat): (t: nat)
    ensures TMIN <= t <= TMAX
  {
    if k <= bias then TMIN else if k >= bias + TMAX then TMAX else k - bias
  }

  /** The digit that `q` starts with when it is not below the threshold. */
  function Low(q: nat, t: nat): (d: Digit)
    requires TMIN <= t <= TMAX && t <= q
    ensures t <= d
  {
    DivMod(q - t, BASE - t);
    t + Mod(q - t, BASE - t)
  }

  /** What remains of `q`: at most what a decimal digit would leave. */
  function High(q: nat, t: nat): (rest: nat)
    requires TMIN <= t <= TMAX && t <= q
    ensures Low(q, t) + rest * (BASE - t) == q
    ensures rest <= q / 10 && rest < q
  {
    DivMod(q - t, BASE - t);
    Tenth(q - t, BASE - t);
    Div(q - t, BASE - t)
  }

  /** `q` as a variable-length integer, least significant digit first; `k` counts the digits in steps of BASE. */
  function Vlq(q: nat, k: nat, bias: nat): (digits: seq<Digit>)
    ensures |digits| > 0
    decreases q
  {
    var t := Threshold(k, bias);
    if q < t then [q] else [Low(q, t)] + Vlq(High(q, t), k + BASE, bias)
  }

  function Chars(digits: seq<Digit>): (text: Text)
    ensures |text| == |digits|
    ensures forall i | 0 <= i < |text| :: text[i] == DigitToChar(digits[i])
  {
    seq(|digits|, i requires 0 <= i < |digits| => DigitToChar(digits[i]))
  }

  lemma NotNegative(a: nat, b: nat)
    ensures a * b >= 0
  {
  }

  /** The inner loop of the decoder in section 6.2 of RFC 3492: `i` grows by the integer at the front of `text`. */
  function ReadVlq(text: Text, k: nat, bias: nat, i: nat, w: nat): (r: Option<(nat, Text)>)
    ensures r.Some? ==> r.value.0 >= i && |r.value.1| < |text|
  {
    if text == [] then None
    else
      match DigitOf(text[0])
      case None => None
      case Some(digit) =>
        var t := Threshold(k, bias);
        NotNegative(digit, w);
        NotNegative(w, BASE - t);
        if digit < t then Some((i + digit * w, text[1..]))
        else ReadVlq(text[1..], k + BASE, bias, i + digit * w, w * (BASE - t))
  }

  /** Reading an integer back gives the integer, and leaves the text that follows it. */
  lemma {:induction false} ReadsBack(q: nat, k: nat, bias: nat, rest: Text, i: nat, w: nat)
    ensures ReadVlq(Chars(Vlq(q, k, bias)) + rest, k, bias, i, w) == Some((i + q * w, rest))
    decreases q
  {
    hide Low, High, Threshold, DigitOf, DigitToChar, ReadVlq;
    var t := Threshold(k, bias);
    var digits := Vlq(q, k, bias);
    var text := Chars(digits) + rest;
    assert text[0] == DigitToChar(digits[0]);
    ReadDigit(text, digits[0], k, bias, i, w);
    if q < t {
      assert text[1..] == rest;
    } else {
      var d, q' := Low(q, t), High(q, t);
      assert digits[0] == d && digits[1..] == Vlq(q', k + BASE, bias);
      assert text[1..] == Chars(Vlq(q', k + BASE, bias)) + rest;
      NotNegative(d, w);
      NotNegative(w, BASE - t);
      Place(q, q', d, BASE - t, w);
      ReadsBack(q', k + BASE, bias, rest, i + d * w, w * (BASE - t));
    }
  }

  lemma ReadDigit(text: Text, d: Digit, k: nat, bias: nat, i: nat, w: nat)
    requires text != [] && DigitOf(text[0]) == Some(d)
    ensures d * w >= 0 && w * (BASE - Threshold(k, bias)) >= 0
    ensures ReadVlq(text, k, bias, i, w)
            == if d < Threshold(k, bias) then Some((i + d * w, text[1..]))
               else ReadVlq(text[1..], k + BASE, bias, i + d * w, w * (BASE - Threshold(k, bias)))
  {
    hide Threshold, DigitOf;
    NotNegative(d, w);
    NotNegative(w, BASE - Threshold(k, bias));
  }

  lemma Place(q: nat, q': nat, d: nat, base: nat, w: nat)
    requires q == d + q' * base
    ensures d * w + q' * (w * base) == q * w
  {
    calc {
      q * w;
      (d + q' * base) * w;
      d * w + q' * base * w;
      d * w + q' * (w * base);
    }
  }

  function DecimalLength(q: nat): (n: nat)
    ensures n >= 1
  {
    if q < 10 then 1 else 1 + DecimalLength(q / 10)
  }

  lemma {:induction false} DecimalLengthMonotone(q: nat, r: nat)
    requires q <= r
    ensures DecimalLength(q) <= DecimalLength(r)
  {
    if q >= 10 { DecimalLengthMonotone(q / 10, r / 10); }
  }

  /** An integer has at most one digit more than it has in decimal. */
  lemma {:induction false} VlqLength(q: nat, k: nat, bias: nat)
    ensures |Vlq(q, k, bias)| <= DecimalLength(q) + 1
    decreases q
  {
    hide Low, High, Threshold;
    var t := Threshold(k, bias);
    if q >= t {
      var q' := High(q, t);
      if q >= 10 {
        VlqLength(q', k + BASE, bias);
        DecimalLengthMonotone(q', q / 10);
      } else {
        assert q' == 0;
      }
    }
  }

  /** The bias stays small. */
  lemma {:induction false} ShrinkBound(delta: nat, k: nat)
    ensures k <= Shrink(delta, k) <= k + delta + BASE
    decreases delta
  {
    if delta > ((BASE - TMIN) * TMAX) / 2 {
      ShrinkBound(delta / (BASE - TMIN), k + BASE);
    } else {
      Fraction(36 * delta, delta + SKEW, 36);
    }
  }

  function Power(b: nat, n: nat): (p: nat)
    requires b > 0
    ensures p > 0
  {
    if n == 0 then 1 else b * Power(b, n - 1)
  }

  /** Dividing by 35 and then by `p` is dividing by their product. */
  lemma DivTwice(x: nat, p: nat)
    requires p > 0
    ensures Div(x / 35, p) == Div(x, 35 * p)
  {
    hide Div, Mod;
    var q, r := Div(x / 35, p), Mod(x / 35, p);
    DivMod(x / 35, p);
    Wrap(r, 35);
    Product(r + 1, p, 35, 35);
    assert x == 35 * (q * p + r) + x % 35;
    Reorder(q, p);
    Quotient(x, q, 35 * p, 35 * r + x % 35);
  }

  lemma Reorder(q: nat, p: nat)
    ensures 35 * (q * p) == q * (35 * p)
  {
  }

  /** Dividing by 35 as often as it takes to come down to 455. */
  lemma {:induction false} ShrinkIs(x: nat, k: nat) returns (j: nat)
    ensures Div(x, Power(35, j)) <= 455
    ensures forall i: nat | i < j :: Div(x, Power(35, i)) > 455
    ensures var e := Div(x, Power(35, j)); Shrink(x, k) == k + 36 * j + Div(36 * e, e + 38)
    decreases x
  {
    hide Div;
    assert Div(x, Power(35, 0)) == x by { Quotient(x, x, 1, 0); }
    if x > 455 {
      var l := ShrinkIs(x / 35, k + 36);
      j := l + 1;
      forall i: nat | i < j ensures Div(x, Power(35, i)) > 455 {
        if i > 0 { DivTwice(x, Power(35, i - 1)); }
      }
      DivTwice(x, Power(35, l));
    } else {
      j := 0;
    }
  }

  /**
   * The adapted bias in numbers. The delta is damped by 700 the first time and by 2 later, and grows
   * by its share for each code point. With `e` what is left of it after the `j` divisions by 35 that
   * it takes to come down to 455, the bias is 36 for each of these and a fraction of 36 for `e`.
   */
  lemma AdaptIs(delta: nat, numPoints: nat, firstTime: bool) returns (x: nat, j: nat)
    requires numPoints > 0
    ensures firstTime ==> x == delta / 700 + Div(delta / 700, numPoints)
    ensures !firstTime ==> x == delta / 2 + Div(delta / 2, numPoints)
    ensures forall i: nat | i < j :: Div(x, Power(35, i)) > 455
    ensures var e := Div(x, Power(35, j));
            e <= 455 && Adapt(delta, numPoints, firstTime) == 36 * j + Div(36 * e, e + 38)
  {
    hide Div, Shrink;
    var damped := if firstTime then delta / 700 else delta / 2;
    x := damped + Div(damped, numPoints);
    j := ShrinkIs(x, 0);
  }

  lemma AdaptBound(delta: nat, numPoints: nat, firstTime: bool)
    requires numPoints > 0
    ensures Adapt(delta, numPoints, firstTime) <= delta / 35 + 600
  {
    hide Shrink, Div;
    var damped := if firstTime then delta / DAMP else delta / 2;
    var share := Div(damped, numPoints);
    Share(damped, numPoints);
    ShrinkOnce(damped + share, delta);
  }

  lemma ShrinkOnce(d: nat, delta: nat)
    requires d <= delta
    ensures Shrink(d, 0) <= delta / 35 + 600
  {
    if d > 455 { ShrinkBound(d / 35, 36); } else { ShrinkBound(d, 0); }
  }
}
