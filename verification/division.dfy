/** Division as JavaScript numbers perform it, over exact reals: a non-zero
    divisor gives a finite quotient; a zero divisor gives an infinity whose
    sign is the dividend's, or NaN when the dividend is zero too. */
module Division {

  datatype Quotient = Finite(value: real) | PositiveInfinity | NegativeInfinity | NotANumber

  function Divide(a: real, b: real): (q: Quotient)
    ensures b != 0.0 <==> q.Finite?
    ensures q.Finite? ==> q.value * b == a
    ensures b == 0.0 ==> (q.PositiveInfinity? <==> a > 0.0) && (q.NegativeInfinity? <==> a < 0.0)
  {
    if b != 0.0 then Finite(a / b)
    else if a > 0.0 then PositiveInfinity
    else if a < 0.0 then NegativeInfinity
    else NotANumber
  }

  /** Multiplication by 100: finite values scale, infinities and NaN are kept. */
  function Percent(q: Quotient): (r: Quotient)
    ensures r.Finite? <==> q.Finite?
    ensures r.Finite? ==> r.value / 100.0 == q.value
    ensures !q.Finite? ==> r == q
  {
    match q
    case Finite(v) => Finite(v * 100.0)
    case _ => q
  }
}
