/** The JavaScript values the tipping and event code passes around: optional
    values, thrown values, the settled outcome of an awaited call, and numbers
    as far as the code distinguishes them. */
module JsValues {

  datatype Option<+T> = None | Some(value: T)

  datatype Result<+R, +E> = Ok(value: R) | Err(error: E)

  /** A value thrown by JavaScript code: an `Error` object (which carries a
      message) or any other value, for which `instanceof Error` is false. */
  datatype Thrown = Error(message: string) | NonError

  /** How an awaited call into code outside the model settled. */
  datatype Call<+T> = Returned(value: T) | Threw(thrown: Thrown)

  /** A JavaScript number: NaN, a finite value, or one of the infinities.
      Finite values are exact reals; IEEE-754 rounding is not modelled. */
  datatype Number = NaN | Finite(value: real) | PosInfinity | NegInfinity

  /** JavaScript `a < b` on numbers: false whenever NaN is involved. */
  predicate Less(a: Number, b: Number)
  {
    match (a, b)
    case (NaN, _) => false
    case (_, NaN) => false
    case (PosInfinity, _) => false
    case (_, NegInfinity) => false
    case (NegInfinity, _) => true
    case (_, PosInfinity) => true
    case (Finite(x), Finite(y)) => x < y
  }

  /** JavaScript `a <= b` on numbers: false whenever NaN is involved. */
  predicate LessOrEqual(a: Number, b: Number)
  {
    !a.NaN? && !b.NaN? && !Less(b, a)
  }

  /** JavaScript `a * k` for a positive finite factor `k`. */
  function Scale(a: Number, k: real): (r: Number)
    requires k > 0.0
    ensures a.Finite? <==> r.Finite?
    ensures a.Finite? ==> r.value == a.value * k
    ensures a.PosInfinity? <==> r.PosInfinity?
  {
    match a
    case Finite(x) => Finite(x * k)
    case _ => a
  }

  /** JavaScript `a + k` for a finite addend `k`. */
  function Plus(a: Number, k: real): (r: Number)
    ensures a.Finite? <==> r.Finite?
    ensures a.Finite? ==> r.value == a.value + k
    ensures a.PosInfinity? <==> r.PosInfinity?
  {
    match a
    case Finite(x) => Finite(x + k)
    case _ => a
  }

  /** The JavaScript comparisons agree with the order on reals where both
      sides are finite, and NaN compares false both ways. */
  lemma ComparisonsOnFinite(x: real, y: real)
    ensures Less(Finite(x), Finite(y)) <==> x < y
    ensures LessOrEqual(Finite(x), Finite(y)) <==> x <= y
    ensures !Less(NaN, Finite(y)) && !Less(Finite(y), NaN)
    ensures !LessOrEqual(NaN, Finite(y)) && !LessOrEqual(Finite(y), NaN)
  {
  }
}
