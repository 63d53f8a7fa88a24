/** Just enough of JavaScript's number semantics to follow the unguarded
    divisions of the application: dividing by zero gives an infinity or NaN,
    and every comparison with NaN is false. Finite values are exact reals. */
module JsNumber {

  datatype Num = Finite(value: real) | PosInf | NegInf | NaN

  /** `a / b`. */
  function Div(a: real, b: real): (r: Num)
    ensures b != 0.0 ==> r == Finite(a / b)
    ensures b == 0.0 ==> (r.NaN? <==> a == 0.0) && (r.PosInf? <==> a > 0.0) && (r.NegInf? <==> a < 0.0)
  {
    if b != 0.0 then Finite(a / b)
    else if a > 0.0 then PosInf
    else if a < 0.0 then NegInf
    else NaN
  }

  /** `n * c` for a positive constant `c`. */
  function Scale(n: Num, c: real): (r: Num)
    requires c > 0.0
    ensures n.Finite? ==> r == Finite(n.value * c)
    ensures !n.Finite? ==> r == n
  {
    if n.Finite? then Finite(n.value * c) else n
  }

  /** `(a / b) * 100`. */
  function Percent(a: real, b: real): Num {
    Scale(Div(a, b), 100.0)
  }

  /** `n >= t` for a finite `t`. */
  predicate AtLeast(n: Num, t: real) {
    match n
    case Finite(v) => v >= t
    case PosInf => true
    case NegInf => false
    case NaN => false
  }

  /** `Math.floor`. */
  function Floor(x: real): (r: int)
    ensures r as real <= x < r as real + 1.0
  {
    x.Floor
  }

  /** `Math.round`: the nearest integer, halves rounded up. */
  function Round(n: Num): (r: Num)
    ensures n.Finite? ==> r.Finite? && r.value - 0.5 <= n.value < r.value + 0.5
    ensures !n.Finite? ==> r == n
  {
    match n
    case Finite(v) => Finite(Floor(v + 0.5) as real)
    case _ => n
  }

  /** With a positive divisor a percentage is an ordinary finite ratio, and
      reaching t percent is reaching t hundredths of the divisor. */
  lemma PercentPositive(a: real, b: real, t: real)
    requires b > 0.0
    ensures Percent(a, b) == Finite(a / b * 100.0)
    ensures AtLeast(Percent(a, b), t) <==> a * 100.0 >= t * b
  {
    assert a / b * 100.0 * b == a * 100.0;
  }

  /** A rounded finite value reaches an integer n exactly when the value
      reaches n - 0.5. */
  lemma RoundAtLeast(x: real, n: int)
    ensures AtLeast(Round(Finite(x)), n as real) <==> x >= n as real - 0.5
  {
    var f := Floor(x + 0.5);
    assert Round(Finite(x)) == Finite(f as real);
    if x >= n as real - 0.5 {
      assert f as real > (n - 1) as real;
      assert f > n - 1;
    } else {
      assert f as real < n as real;
    }
  }
}
