/** The part of JavaScript number semantics the screens rely on: division
    that may produce an infinity or NaN, scaling by a positive constant,
    comparisons that are false on NaN, and Math.min / Math.max, which
    propagate NaN. Finite values are exact reals (rounding is not modelled). */
module JsNumber {

  datatype Num = Finite(v: real) | PosInf | NegInf | NaN

  /** `a / b` on numbers: a non-zero numerator over zero gives a signed
      infinity, 0 / 0 gives NaN. */
  function Div(a: real, b: real): (r: Num)
    ensures b != 0.0 ==> r == Finite(a / b)
    ensures r.NaN? <==> a == 0.0 && b == 0.0
    ensures r == PosInf <==> b == 0.0 && a > 0.0
    ensures r == NegInf <==> b == 0.0 && a < 0.0
  {
    if b != 0.0 then Finite(a / b)
    else if a > 0.0 then PosInf
    else if a < 0.0 then NegInf
    else NaN
  }

  /** `x * k` for a positive constant `k`. */
  function Scale(x: Num, k: real): (r: Num)
    requires k > 0.0
    ensures x.Finite? <==> r.Finite?
    ensures x.Finite? ==> r.v == x.v * k
    ensures !x.Finite? ==> r == x
  {
    match x
    case Finite(v) => Finite(v * k)
    case _ => x
  }

  /** `x < c`; false when `x` is NaN. */
  predicate Lt(x: Num, c: real) {
    match x
    case Finite(v) => v < c
    case PosInf => false
    case NegInf => true
    case NaN => false
  }

  /** `x >= c`; false when `x` is NaN. */
  predicate Ge(x: Num, c: real) {
    match x
    case Finite(v) => v >= c
    case PosInf => true
    case NegInf => false
    case NaN => false
  }

  /** `x === c`; false when `x` is NaN or infinite. */
  predicate Eq(x: Num, c: real) {
    x.Finite? && x.v == c
  }

  /** `Math.min(x, c)`. */
  function Min(x: Num, c: real): (r: Num)
    ensures x.NaN? <==> r.NaN?
    ensures !x.NaN? ==> r.Finite? || r == NegInf
    ensures r.Finite? ==> r.v <= c && (r.v == c || r == x)
    ensures x.Finite? ==> r.Finite? && r.v <= x.v
    ensures x == NegInf <==> r == NegInf
    ensures x == PosInf ==> r == Finite(c)
  {
    match x
    case Finite(v) => if v <= c then x else Finite(c)
    case PosInf => Finite(c)
    case NegInf => NegInf
    case NaN => NaN
  }

  /** `Math.max(x, c)`. */
  function Max(x: Num, c: real): (r: Num)
    ensures x.NaN? <==> r.NaN?
    ensures !x.NaN? ==> r.Finite? || r == PosInf
    ensures r.Finite? ==> r.v >= c && (r.v == c || r == x)
    ensures x.Finite? ==> r.Finite? && r.v >= x.v
    ensures x == PosInf <==> r == PosInf
    ensures x == NegInf ==> r == Finite(c)
  {
    match x
    case Finite(v) => if v >= c then x else Finite(c)
    case PosInf => PosInf
    case NegInf => Finite(c)
    case NaN => NaN
  }

  /** Dividing by a positive number keeps the order: `a / b >= k` exactly
      when `a >= k * b`. */
  lemma DivAtLeast(a: real, b: real, k: real)
    requires b > 0.0
    ensures a / b >= k <==> a >= k * b
  {
    var q := a / b;
    assert q * b == a;
    assert (q - k) * b == a - k * b;
    SignOfProduct(q - k, b);
  }

  /** Dividing by a positive number keeps the order: `a / b <= k` exactly
      when `a <= k * b`. */
  lemma DivAtMost(a: real, b: real, k: real)
    requires b > 0.0
    ensures a / b <= k <==> a <= k * b
  {
    var q := a / b;
    assert q * b == a;
    assert (k - q) * b == k * b - a;
    SignOfProduct(k - q, b);
  }

  lemma SignOfProduct(x: real, b: real)
    requires b > 0.0
    ensures x >= 0.0 <==> x * b >= 0.0
  {
  }
}
