/** Facts about real arithmetic shared by the signal-processing modules. */
module RealArith {

  function Abs(x: real): (r: real)
    ensures r >= 0.0 && (r == x || r == -x)
  {
    if x < 0.0 then -x else x
  }

  /** Multiplying by a non-negative factor keeps the order. */
  lemma Scale(c: real, a: real, b: real)
    requires 0.0 <= c && a <= b
    ensures c * a <= c * b && a * c <= b * c
  {
  }

  lemma AbsScale(c: real, x: real)
    requires 0.0 <= c
    ensures Abs(c * x) == c * Abs(x)
  {
    if x < 0.0 {
      Scale(c, x, 0.0);
    } else {
      Scale(c, 0.0, x);
    }
  }

  lemma DivNonNegative(a: real, b: real)
    requires 0.0 <= a && 0.0 < b
    ensures 0.0 <= a / b
  {
  }
}
