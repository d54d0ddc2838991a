/**
 * The three percentage calculators behind one entry point, `calculate(type, a, b)`.
 *
 * The inputs arrive already parsed: `None` is a `parseFloat` that gave `NaN`
 * (an empty or non-numeric field), `Some(x)` a number. A `None` result is
 * the JavaScript `null`.
 */
module Calculate {
  import opened Wrappers
  import opened JsMath

  /** `calculate(type, a, b)`: `type` is the calculator's name; any other name has no result. */
  function Calculate(kind: string, a: Option<real>, b: Option<real>): (r: Option<real>)
    ensures a.None? || b.None? ==> r.None?
    ensures kind != "whatIs" && kind != "whatPercent" && kind != "change" ==> r.None?
    // "What is a% of b?": always answered for numbers.
    ensures kind == "whatIs" && a.Some? && b.Some? ==>
      r.Some? && r.value * 100.0 == a.value * b.value
    // "a is what percent of b?": unanswered exactly when b is zero.
    ensures kind == "whatPercent" && a.Some? && b.Some? ==>
      (r.None? <==> b.value == 0.0) &&
      (r.Some? ==> r.value * b.value == a.value * 100.0)
    // "Percent change from a to b": unanswered exactly when a is zero.
    ensures kind == "change" && a.Some? && b.Some? ==>
      (r.None? <==> a.value == 0.0) &&
      (r.Some? ==> r.value * Abs(a.value) == (b.value - a.value) * 100.0)
  {
    if a.None? || b.None? then None
    else
      var numA := a.value;
      var numB := b.value;
      if kind == "whatIs" then Some((numA / 100.0) * numB)
      else if kind == "whatPercent" then (if numB == 0.0 then None else Some((numA / numB) * 100.0))
      else if kind == "change" then
        (if numA == 0.0 then None else Some(((numB - numA) / Abs(numA)) * 100.0))
      else None
  }

  /** Asking what percent of `b` the answer to "p% of b" is gives `p` back, for any non-zero `b`. */
  lemma PercentOfRoundTrip(p: real, b: real)
    requires b != 0.0
    ensures Calculate("whatIs", Some(p), Some(b)).Some?
    ensures Calculate("whatPercent", Calculate("whatIs", Some(p), Some(b)), Some(b)) == Some(p)
  {
    var x := Calculate("whatIs", Some(p), Some(b)).value;
    var q := Calculate("whatPercent", Some(x), Some(b)).value;
    PercentBack(p, b, x, q);
  }

  /** If `x` is `p` percent of `b` and `q` is `x` as a percentage of `b`, then `q` is `p`. */
  lemma PercentBack(p: real, b: real, x: real, q: real)
    requires b != 0.0 && x * 100.0 == p * b && q * b == x * 100.0
    ensures q == p
  {
    CancelFactor(q, p, b);
  }

  /** Equal products with the same non-zero factor have equal cofactors. */
  lemma CancelFactor(x: real, y: real, b: real)
    requires b != 0.0 && x * b == y * b
    ensures x == y
  {
    assert (x - y) * b == 0.0;
  }

  /** Applying a change of `c` percent to a non-zero `a` and asking for the change gives `c` back. */
  lemma ChangeRoundTrip(a: real, c: real)
    requires a != 0.0
    ensures Calculate("change", Some(a), Some(a + Abs(a) * c / 100.0)) == Some(c)
  {
    var b := a + Abs(a) * c / 100.0;
    var q := Calculate("change", Some(a), Some(b)).value;
    assert q * Abs(a) == (b - a) * 100.0;
    assert (b - a) * 100.0 == c * Abs(a);
    CancelFactor(q, c, Abs(a));
  }

  /** No movement is no change. */
  lemma ChangeFromItself(a: real)
    requires a != 0.0
    ensures Calculate("change", Some(a), Some(a)) == Some(0.0)
  {
  }

  /** The change is positive exactly for a rise and negative exactly for a fall, whatever the sign of `a`. */
  lemma ChangeSign(a: real, b: real)
    requires a != 0.0
    ensures Calculate("change", Some(a), Some(b)).Some?
    ensures Calculate("change", Some(a), Some(b)).value > 0.0 <==> b > a
    ensures Calculate("change", Some(a), Some(b)).value < 0.0 <==> b < a
  {
    var q := Calculate("change", Some(a), Some(b)).value;
    SignOfQuotient(q, Abs(a), (b - a) * 100.0);
  }

  /** A value times a positive amount has the sign of the product. */
  lemma SignOfQuotient(q: real, d: real, p: real)
    requires d > 0.0 && q * d == p
    ensures q > 0.0 <==> p > 0.0
    ensures q < 0.0 <==> p < 0.0
  {
    if q > 0.0 {
      assert q * d > 0.0;
    } else if q < 0.0 {
      assert (-q) * d > 0.0;
    }
  }

  /** Worked examples: 10% of 200, 50 of 100, changes up and down and from a negative value, a zero divisor, an unknown kind. */
  lemma Examples()
    ensures Calculate("whatIs", Some(10.0), Some(200.0)) == Some(20.0)
    ensures Calculate("whatPercent", Some(50.0), Some(100.0)) == Some(50.0)
    ensures Calculate("whatPercent", Some(10.0), Some(0.0)) == None
    ensures Calculate("change", Some(100.0), Some(150.0)) == Some(50.0)
    ensures Calculate("change", Some(200.0), Some(150.0)) == Some(-25.0)
    ensures Calculate("change", Some(0.0), Some(100.0)) == None
    ensures Calculate("change", Some(-100.0), Some(-50.0)) == Some(50.0)
    ensures Calculate("change", Some(-100.0), Some(100.0)) == Some(200.0)
    ensures Calculate("sum", Some(1.0), Some(2.0)) == None
  {
  }

  /** The text shown for a missing result: the em dash. */
  const EmDash: string := "—"

  /**
   * `formatResult` for a missing result. Numbers are formatted with the
   * platform's locale, which is not modelled, so a present value is passed
   * in already formatted as `formatted`.
   */
  function FormatResult(val: Option<real>, formatted: string): (s: string)
    ensures val.None? ==> s == EmDash && |s| == 1 && s[0] == '—'
    ensures val.Some? ==> s == formatted
  {
    if val.None? then EmDash else formatted
  }
}
