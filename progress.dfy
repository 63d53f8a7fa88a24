/** The progress bar: how much of the bar is filled, as a percentage. */
module ProgressBar {
  /** `value / max * 100`, held between 0 and 100; a bar whose maximum is
      not positive stays empty. */
  function Percentage(value: real, max: real): real {
    if max > 0.0 then
      var p := value / max * 100.0;
      if p < 0.0 then 0.0 else if p > 100.0 then 100.0 else p
    else 0.0
  }

  /** The filled share is always a percentage; with a positive maximum it is
      empty exactly when the value is not positive, full exactly when the
      value reaches the maximum, and otherwise the value's share of it. */
  lemma PercentageMeaning(value: real, max: real)
    ensures 0.0 <= Percentage(value, max) <= 100.0
    ensures max <= 0.0 ==> Percentage(value, max) == 0.0
    ensures max > 0.0 ==> (Percentage(value, max) == 0.0 <==> value <= 0.0)
    ensures max > 0.0 ==> (Percentage(value, max) == 100.0 <==> value >= max)
    ensures max > 0.0 && 0.0 <= value <= max ==> Percentage(value, max) * max == value * 100.0
  {
    if max > 0.0 {
      var q := value / max;
      assert q * max == value;
      assert value <= 0.0 <==> q <= 0.0;
      assert value >= max <==> q >= 1.0;
    }
  }

  /** More of the same maximum never fills less of the bar. */
  lemma PercentageMonotonic(value: real, more: real, max: real)
    requires value <= more
    ensures Percentage(value, max) <= Percentage(more, max)
  {
    if max > 0.0 {
      var q, r := value / max, more / max;
      assert q * max == value && r * max == more;
      assert q <= r;
    }
  }
}
