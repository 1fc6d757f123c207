/** Facts about real division the percentage tests rely on. */
module RealArith {

  lemma MulPositive(x: real, y: real)
    requires x > 0.0 && y > 0.0
    ensures x * y > 0.0
  {
  }

  lemma MulNonPositive(x: real, y: real)
    requires x <= 0.0 && y > 0.0
    ensures x * y <= 0.0
  {
  }

  /** A quotient over a positive divisor exceeds `c` exactly when the dividend exceeds `c`
      times the divisor. */
  lemma DivAbove(a: real, b: real, c: real)
    requires b > 0.0
    ensures a / b > c <==> a > c * b
  {
    var q := a / b;
    assert q * b == a;
    if q > c {
      MulPositive(q - c, b);
    } else {
      MulNonPositive(q - c, b);
    }
  }
}
