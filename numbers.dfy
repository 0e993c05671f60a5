/**
 * The parts of JavaScript number arithmetic the map code depends on.
 *
 * Values are exact reals; IEEE rounding is not modelled. What is modelled is
 * the behaviour of division by zero, because the map service divides by a
 * camera zoom that starts at 0: the quotient is an infinity or NaN, and
 * `Math.floor`, `Math.max`, `Math.min`, `<` and `<=` then follow the
 * ECMAScript rules for those values.
 */
module Numbers {

  /** A JavaScript number: finite, one of the two infinities, or NaN. */
  datatype Num = Fin(r: real) | PosInf | NegInf | NaN

  /** `a / b` for finite operands. */
  function Div(a: real, b: real): Num {
    if b != 0.0 then Fin(a / b)
    else if a > 0.0 then PosInf
    else if a < 0.0 then NegInf
    else NaN
  }

  /** `Math.floor`. */
  function Floor(n: Num): Num {
    match n
    case Fin(r) => Fin(r.Floor as real)
    case _ => n
  }

  /** Order of the numbers other than NaN: -Infinity < finite < +Infinity. */
  predicate OrderedLe(a: Num, b: Num)
    requires !a.NaN? && !b.NaN?
  {
    match (a, b)
    case (NegInf, _) => true
    case (_, PosInf) => true
    case (Fin(x), Fin(y)) => x <= y
    case _ => false
  }

  /** `a <= b`: false as soon as either side is NaN. */
  predicate Le(a: Num, b: Num) {
    !a.NaN? && !b.NaN? && OrderedLe(a, b)
  }

  /** `a < b`: false as soon as either side is NaN. */
  predicate Lt(a: Num, b: Num) {
    !a.NaN? && !b.NaN? && !OrderedLe(b, a)
  }

  /** `Math.max(a, b)`: NaN if either argument is NaN. */
  function Max(a: Num, b: Num): Num {
    if a.NaN? || b.NaN? then NaN
    else if OrderedLe(a, b) then b else a
  }

  /** `Math.min(a, b)`: NaN if either argument is NaN. */
  function Min(a: Num, b: Num): Num {
    if a.NaN? || b.NaN? then NaN
    else if OrderedLe(a, b) then a else b
  }

  /** `Math.sign` of a finite number. */
  function Sign(d: real): (s: int)
    ensures s == -1 || s == 0 || s == 1
    ensures s < 0 <==> d < 0.0
    ensures s > 0 <==> d > 0.0
  {
    if d > 0.0 then 1 else if d < 0.0 then -1 else 0
  }

  /** `Math.pow(b, k)` for a positive base and an integer exponent, negative ones included. */
  function Pow(b: real, k: int): (r: real)
    requires b > 0.0
    ensures r > 0.0
    decreases if k < 0 then -k else k
  {
    if k == 0 then 1.0
    else if k > 0 then b * Pow(b, k - 1)
    else Pow(b, k + 1) / b
  }

  /** One more step of the exponent multiplies by the base, on both sides of zero. */
  lemma PowSucc(b: real, k: int)
    requires b > 0.0
    ensures Pow(b, k + 1) == b * Pow(b, k)
  {
    if k < 0 {
      assert Pow(b, k) == Pow(b, k + 1) / b;
    }
  }

  /** A base above 1 makes the power strictly increasing in the exponent. */
  lemma {:induction false} PowStrictlyIncreasing(b: real, j: int, k: int)
    requires b > 1.0
    requires j < k
    ensures Pow(b, j) < Pow(b, k)
    decreases k - j
  {
    PowSucc(b, j);
    var p := Pow(b, j);
    var e := b - 1.0;
    assert e * p > 0.0;
    assert b * p == p + e * p;
    assert p < Pow(b, j + 1);
    if j + 1 < k {
      PowStrictlyIncreasing(b, j + 1, k);
    } else {
      assert k == j + 1;
    }
  }
}
