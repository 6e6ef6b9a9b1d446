/**
 * The output helpers of the older engine (lib/water-quality/utils.ts):
 * truncation to two decimals and the monotonic constraint applied after each
 * decay step.
 */
module Utils {
  import opened Numeric

  /** Whether a number is a whole number of hundredths. */
  predicate TwoDecimals(r: real)
  {
    (r * 100.0).Floor as real == r * 100.0
  }

  /**
   * `truncateToTwoDecimals`: 0 for NaN and the infinities; otherwise the
   * largest whole number of hundredths not above the value.
   */
  function TruncateToTwoDecimals(v: Num): (r: real)
    ensures !v.Finite? ==> r == 0.0
    ensures v.Finite? ==> TwoDecimals(r) && r <= v.value < r + 0.01
  {
    if !v.Finite? then 0.0 else ((v.value * 100.0).Floor as real) / 100.0
  }

  /** Truncating a truncated value changes nothing. */
  lemma TruncateIdempotent(v: Num)
    ensures TruncateToTwoDecimals(Finite(TruncateToTwoDecimals(v))) == TruncateToTwoDecimals(v)
  {
    var r := TruncateToTwoDecimals(v);
    assert (r * 100.0).Floor as real == r * 100.0;
  }

  /** The value the truncation picks is the only whole number of hundredths within 0.01 below. */
  lemma TruncateIsUnique(v: real, r: real)
    requires TwoDecimals(r) && r <= v < r + 0.01
    ensures r == TruncateToTwoDecimals(Finite(v))
  {
    var k := (r * 100.0).Floor;
    assert k as real <= v * 100.0 < k as real + 1.0;
    assert (v * 100.0).Floor == k;
  }

  datatype Direction = Decreasing | Increasing | NoConstraint

  /**
   * `applyAlgorithmConstraints`: a non-finite new value falls back to the
   * previous value (or 0), a non-finite previous value lets the new value
   * through; otherwise 'decreasing' keeps the smaller of the two, 'increasing'
   * the larger, and 'none' the new value. The result is always finite.
   */
  function ApplyAlgorithmConstraints(newValue: Num, previousValue: Num, d: Direction): (r: Num)
    ensures r.Finite?
    ensures !newValue.Finite? ==> r == (if previousValue.Finite? then previousValue else Finite(0.0))
    ensures newValue.Finite? && !previousValue.Finite? ==> r == newValue
    ensures newValue.Finite? && previousValue.Finite? ==>
      match d
      case Decreasing => r.value == Min(newValue.value, previousValue.value)
      case Increasing => r.value == Max(newValue.value, previousValue.value)
      case NoConstraint => r == newValue
  {
    if !newValue.Finite? then
      (if previousValue.Finite? then previousValue else Finite(0.0))
    else if !previousValue.Finite? then newValue
    else if d == Decreasing && newValue.value > previousValue.value then previousValue
    else if d == Increasing && newValue.value < previousValue.value then previousValue
    else newValue
  }

  /** With a finite previous value, 'decreasing' never rises above it and 'increasing' never falls below it. */
  lemma ConstraintDirection(newValue: Num, previousValue: real)
    ensures ApplyAlgorithmConstraints(newValue, Finite(previousValue), Decreasing).value <= previousValue
    ensures ApplyAlgorithmConstraints(newValue, Finite(previousValue), Increasing).value >= previousValue
  {
  }
}
