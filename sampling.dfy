/**
 * The evenly spaced month selection that both chart generators use:
 * point `i` of `count` sits at `Math.min(Math.round(i * step), last)`
 * with `step = last / (count - 1)`.
 */
module Sampling {
  import opened JsMath

  /** One chart point `{ month, value, invested }`, as both generators build it and the scrubber returns it. */
  datatype Point = Point(month: real, value: real, invested: real)

  /** Distance between consecutive sample targets. */
  function Step(last: nat, count: int): (s: real)
    requires count >= 2
    ensures 0.0 <= s
    ensures (count - 1) as real * s == last as real
    ensures last >= count - 1 ==> s >= 1.0
  {
    QuotientAtLeastOne(last as real, (count - 1) as real);
    last as real / (count - 1) as real
  }

  /** Dividing by a positive amount no larger than the dividend gives at least one. */
  lemma QuotientAtLeastOne(x: real, g: real)
    requires g > 0.0
    ensures x >= g ==> x / g >= 1.0
  {
    var q := x / g;
    assert (q - 1.0) * g == x - g;
  }

  /** A sample index within range stays within the series. */
  lemma ScaleBelowLast(i: nat, g: nat, s: real, last: nat)
    requires i <= g && s >= 0.0 && g as real * s == last as real
    ensures i as real * s <= last as real
  {
    assert (g - i) as real * s >= 0.0;
  }

  /** Scaling by a non-negative step keeps the order of sample indices. */
  lemma ScaleMonotone(i: nat, j: nat, s: real)
    requires i <= j && s >= 0.0
    ensures 0.0 <= i as real * s <= j as real * s
  {
    assert (j - i) as real * s >= 0.0;
  }

  /** With a step of at least one month, consecutive indices land at least a month apart. */
  lemma ScaleGap(i: nat, j: nat, s: real)
    requires i < j && s >= 1.0
    ensures i as real * s + 1.0 <= j as real * s
  {
    var d := (j - i) as real;
    assert d * (s - 1.0) >= 0.0;
    assert j as real * s == i as real * s + d * s;
  }

  /** The month that sample `i` of `count` picks from a series ending at month `last`. */
  function SampleMonth(i: nat, last: nat, count: int): (m: nat)
    requires count >= 2
    ensures m <= last
  {
    SampleAt(i, Step(last, count), last)
  }

  /** `Math.min(Math.round(i * step), last)` for a given non-negative step. */
  function SampleAt(i: nat, s: real, last: nat): (m: nat)
    requires s >= 0.0
    ensures m <= last
  {
    ScaleMonotone(0, i, s);
    MinInt(Round(i as real * s), last)
  }

  /** The first sample is month 0. */
  lemma SampleMonthFirst(last: nat, count: int)
    requires count >= 2
    ensures SampleMonth(0, last, count) == 0
  {
    RoundInt(0);
  }

  /** The last sample is exactly the last month, so the series' end is never dropped. */
  lemma SampleMonthLast(last: nat, count: int)
    requires count >= 2
    ensures SampleMonth(count - 1, last, count) == last
  {
    RoundInt(last);
  }

  /** Within the sampled range the `Math.min` cap is never active. */
  lemma SampleMonthUncapped(i: nat, last: nat, count: int)
    requires count >= 2 && i < count
    ensures SampleMonth(i, last, count) == Round(i as real * Step(last, count))
  {
    SampleAtUncapped(i, count - 1, Step(last, count), last);
  }

  /** For a step that spreads `g` gaps over the series, indices up to `g` are never capped. */
  lemma SampleAtUncapped(i: nat, g: nat, s: real, last: nat)
    requires i <= g && s >= 0.0 && g as real * s == last as real
    ensures SampleAt(i, s, last) == Round(i as real * s)
  {
    ScaleBelowLast(i, g, s, last);
    CapInactive(i as real * s, last);
  }

  /** The `Math.min` cap leaves a rounded value alone when the value is at most the cap. */
  lemma CapInactive(x: real, last: nat)
    requires x <= last as real
    ensures MinInt(Round(x), last) == Round(x)
  {
    RoundMonotone(x, last as real);
    RoundInt(last);
  }

  /** Later samples never pick an earlier month. */
  lemma SampleMonthMonotone(i: nat, j: nat, last: nat, count: int)
    requires count >= 2 && i <= j
    ensures SampleMonth(i, last, count) <= SampleMonth(j, last, count)
  {
    SampleAtMonotone(i, j, Step(last, count), last);
  }

  /** For any non-negative step, later indices pick no earlier month. */
  lemma SampleAtMonotone(i: nat, j: nat, s: real, last: nat)
    requires i <= j && s >= 0.0
    ensures SampleAt(i, s, last) <= SampleAt(j, s, last)
  {
    ScaleMonotone(i, j, s);
    RoundMonotone(i as real * s, j as real * s);
  }

  /** When there are at least as many months as gaps, samples pick strictly increasing months. */
  lemma SampleMonthStrict(i: nat, j: nat, last: nat, count: int)
    requires count >= 2 && i < j < count
    requires last >= count - 1
    ensures SampleMonth(i, last, count) < SampleMonth(j, last, count)
  {
    SampleAtStrict(i, j, count - 1, Step(last, count), last);
  }

  /** With a step of at least one month, indices up to the last gap pick strictly increasing months. */
  lemma SampleAtStrict(i: nat, j: nat, g: nat, s: real, last: nat)
    requires i < j <= g && s >= 1.0 && g as real * s == last as real
    ensures SampleAt(i, s, last) < SampleAt(j, s, last)
  {
    ScaleGap(i, j, s);
    ScaleBelowLast(j, g, s, last);
    RoundGap(i as real * s, j as real * s);
    CapInactive(j as real * s, last);
  }
}
