/**
 * The non-rendering half of the growth chart: the month-by-month DCA series
 * under the three price models, its downsampling to at most 37 points, the
 * scrubber's interpolation between points, and the clamped scrub fraction.
 */
module GrowthChart {
  import opened Wrappers
  import opened JsMath
  import opened Sampling
  import opened SeededNoise
  import ImagineCalc

  /** How the price moves from today's to the target: `'bestCase'`, `'linear'` or `'volatile'`. */
  datatype PriceModel = BestCase | Linear | Volatile

  /** Standard deviation of the monthly multiplicative noise. */
  const MonthlyVol: real := 0.15

  /** The largest number of points the chart keeps. */
  const MaxChartPoints: int := 37

  /** `PADDING.left`, the chart's left margin in pixels. */
  const PaddingLeft: real := 20.0

  /** The arguments of `generateChartData`. */
  datatype Scenario = Scenario(
    initial: real,
    monthly: real,
    currentPrice: real,
    targetPrice: real,
    months: int,
    model: PriceModel)

  /** The chart is generated only for a positive horizon and a positive price. */
  predicate Producible(sc: Scenario)
  {
    sc.months > 0 && sc.currentPrice > 0.0
  }

  /** The generator's starting counter, `mulberry32(hashSeed(...))`. */
  function NoiseSeed(sc: Scenario): bv32
  {
    SeedBits(HashSeed(sc.initial, sc.monthly, sc.currentPrice, sc.targetPrice, sc.months as real))
  }

  /** The straight line from today's price at month 0 to the target at the horizon. */
  function TrendPrice(sc: Scenario, m: nat): real
    requires Producible(sc)
  {
    sc.currentPrice + (sc.targetPrice - sc.currentPrice) * (m as real / sc.months as real)
  }

  /**
   * `priceAtMonth`: the trend, and for the volatile model after month 0 the
   * trend times `1 + 0.15 * gaussian`, floored at 1% of today's price.
   * Month `m` uses the Gaussian drawn from the counter after `2 * (m - 1)` calls.
   */
  function PriceAt(sc: Scenario, seed: bv32, boxMuller: (real, real) -> real, m: nat): real
    requires Producible(sc)
  {
    if sc.model == Volatile && m > 0 then
      var noise := MonthlyVol * Gaussian(Advance(seed, 2 * (m - 1)), boxMuller);
      Max(TrendPrice(sc, m) * (1.0 + noise), sc.currentPrice * 0.01)
    else
      TrendPrice(sc, m)
  }

  /** The coins month `m`'s contribution buys at `price`: none in the last month, under best case, or at a non-positive price. */
  function Purchase(sc: Scenario, price: real, m: nat): (c: real)
    ensures c > 0.0 <==> m < sc.months && sc.model != BestCase && price > 0.0 && sc.monthly > 0.0
    ensures c >= 0.0
  {
    if m < sc.months && sc.model != BestCase && price > 0.0 && sc.monthly > 0.0 then sc.monthly / price
    else 0.0
  }

  /** `totalCoins` when month `m` is valued: the initial coins plus every earlier purchase. */
  function CoinsAt(sc: Scenario, seed: bv32, boxMuller: (real, real) -> real, m: nat): real
    requires Producible(sc)
  {
    if m == 0 then sc.initial / sc.currentPrice
    else CoinsAt(sc, seed, boxMuller, m - 1) + Purchase(sc, PriceAt(sc, seed, boxMuller, m - 1), m - 1)
  }

  /**
   * The entry of month `m` when `coins` are held and the price is `price`: best case
   * values the inputs as coins bought today, the others value the coins held.
   */
  function EntryAt(sc: Scenario, coins: real, price: real, m: nat): Point
    requires Producible(sc)
  {
    var value :=
      if sc.model == BestCase then
        (sc.initial / sc.currentPrice + (sc.monthly * m as real) / sc.currentPrice) * price
      else
        coins * price;
    Point(m as real, value, sc.initial + sc.monthly * m as real)
  }

  /** The full-resolution entry for month `m`. */
  function MonthEntry(sc: Scenario, seed: bv32, boxMuller: (real, real) -> real, m: nat): Point
    requires Producible(sc)
  {
    EntryAt(sc, CoinsAt(sc, seed, boxMuller, m), PriceAt(sc, seed, boxMuller, m), m)
  }

  /** `monthlyData`: one entry for every month from 0 to the horizon. */
  function MonthlySeries(sc: Scenario, seed: bv32, boxMuller: (real, real) -> real): (s: seq<Point>)
    requires Producible(sc)
    ensures |s| == sc.months + 1
    ensures forall m :: 0 <= m < |s| ==>
      s[m].month == m as real && s[m].invested == sc.initial + sc.monthly * m as real
    ensures s[0].value == sc.initial
  {
    seq(sc.months + 1, m requires 0 <= m <= sc.months => MonthEntry(sc, seed, boxMuller, m))
  }

  /** `numPoints = Math.min(Math.max(months + 1, 3), 37)`. */
  function ChartPointCount(months: nat): (n: int)
    ensures 3 <= n <= MaxChartPoints
    ensures months + 1 > n <==> months >= MaxChartPoints
  {
    MinInt(MaxInt(months + 1, 3), MaxChartPoints)
  }

  /** The sampling step: a short series is kept whole, a long one is cut to evenly spaced months. */
  function Downsample(series: seq<Point>, months: nat): seq<Point>
    requires |series| == months + 1
  {
    var n := ChartPointCount(months);
    if |series| <= n then series
    else seq(n, i requires 0 <= i < n => series[SampleMonth(i, months, n)])
  }

  /** What `generateChartData` returns. */
  function ChartData(sc: Scenario, boxMuller: (real, real) -> real): seq<Point>
  {
    if !Producible(sc) then [] else Downsample(MonthlySeries(sc, NoiseSeed(sc), boxMuller), sc.months)
  }

  /** One Gaussian for the volatile model: two calls of the generator, from the counter after `k` calls. */
  method DrawNoise(rng: Mulberry32, boxMuller: (real, real) -> real, ghost seed: bv32, ghost k: nat) returns (g: real)
    requires rng.counter == Advance(seed, k)
    modifies rng
    ensures rng.counter == Advance(seed, k + 2)
    ensures g == Gaussian(Advance(seed, k), boxMuller)
  {
    g := GaussianRandom(rng, boxMuller);
    AdvanceTwice(seed, k);
  }

  /**
   * The price step of one month of `generateChartData`: the trend, perturbed for
   * the volatile model after month 0 by one Gaussian drawn from `rng`.
   */
  method MonthPrice(sc: Scenario, rng: Mulberry32?, boxMuller: (real, real) -> real, m: nat, ghost seed: bv32)
    returns (priceAtMonth: real)
    requires Producible(sc)
    requires (rng != null) == (sc.model == Volatile)
    requires rng != null ==> rng.counter == Advance(seed, if m == 0 then 0 else 2 * (m - 1))
    modifies rng
    ensures priceAtMonth == PriceAt(sc, seed, boxMuller, m)
    ensures rng != null ==> rng.counter == Advance(seed, 2 * m)
  {
    priceAtMonth := TrendPrice(sc, m);
    if rng != null && m > 0 {
      var g := DrawNoise(rng, boxMuller, seed, 2 * (m - 1));
      assert 2 * (m - 1) + 2 == 2 * m;
      var noise := MonthlyVol * g;
      priceAtMonth := priceAtMonth * (1.0 + noise);
      priceAtMonth := Max(priceAtMonth, sc.currentPrice * 0.01);
    }
  }

  /** The valuation step of one month: the best-case coins or the running `totalCoins`, at this month's price. */
  method ValueMonth(sc: Scenario, totalCoins: real, priceAtMonth: real, m: nat) returns (entry: Point)
    requires Producible(sc)
    ensures entry == EntryAt(sc, totalCoins, priceAtMonth, m)
  {
    var totalInvested := sc.initial + sc.monthly * m as real;
    var portfolioValue;
    if sc.model == BestCase {
      var bestCaseCoins := sc.initial / sc.currentPrice + (sc.monthly * m as real) / sc.currentPrice;
      portfolioValue := bestCaseCoins * priceAtMonth;
    } else {
      portfolioValue := totalCoins * priceAtMonth;
    }
    entry := Point(m as real, portfolioValue, totalInvested);
  }

  /** The coin step of one month: add this month's purchase to `totalCoins`. */
  method BuyMonth(sc: Scenario, totalCoins: real, priceAtMonth: real, m: nat) returns (coins: real)
    ensures coins == totalCoins + Purchase(sc, priceAtMonth, m)
  {
    coins := totalCoins;
    if m < sc.months && sc.model != BestCase && priceAtMonth > 0.0 && sc.monthly > 0.0 {
      coins := totalCoins + sc.monthly / priceAtMonth;
    }
  }

  /**
   * The month loop of `generateChartData`: a running coin count and, for the
   * volatile model only, a generator seeded from the inputs.
   */
  method WalkMonths(sc: Scenario, boxMuller: (real, real) -> real) returns (monthlyData: seq<Point>)
    requires Producible(sc)
    ensures monthlyData == MonthlySeries(sc, NoiseSeed(sc), boxMuller)
  {
    var rng: Mulberry32? := null;
    if sc.model == Volatile {
      rng := new Mulberry32(HashSeed(sc.initial, sc.monthly, sc.currentPrice, sc.targetPrice, sc.months as real));
    }
    ghost var seed := NoiseSeed(sc);
    monthlyData := [];
    var totalCoins := sc.initial / sc.currentPrice;
    var m := 0;
    while m <= sc.months
      invariant 0 <= m <= sc.months + 1
      invariant |monthlyData| == m
      invariant forall j :: 0 <= j < m ==> monthlyData[j] == MonthEntry(sc, seed, boxMuller, j)
      invariant totalCoins == CoinsAt(sc, seed, boxMuller, m)
      invariant (rng != null) == (sc.model == Volatile)
      invariant rng != null ==> fresh(rng)
      invariant rng != null ==> rng.counter == Advance(seed, if m == 0 then 0 else 2 * (m - 1))
    {
      var priceAtMonth := MonthPrice(sc, rng, boxMuller, m, seed);
      var entry := ValueMonth(sc, totalCoins, priceAtMonth, m);
      assert entry == MonthEntry(sc, seed, boxMuller, m);
      monthlyData := monthlyData + [entry];
      totalCoins := BuyMonth(sc, totalCoins, priceAtMonth, m);
      m := m + 1;
    }
  }

  /** The sampling loop of `generateChartData`: a short series whole, a long one at `numPoints` evenly spaced months. */
  method SampleSeries(monthlyData: seq<Point>, months: nat) returns (data: seq<Point>)
    requires |monthlyData| == months + 1
    ensures data == Downsample(monthlyData, months)
  {
    var numPoints := ChartPointCount(months);
    if |monthlyData| <= numPoints {
      return monthlyData;
    }
    data := [];
    var i := 0;
    while i < numPoints
      invariant 0 <= i <= numPoints
      invariant |data| == i
      invariant forall k :: 0 <= k < i ==> data[k] == monthlyData[SampleMonth(k, months, numPoints)]
    {
      var targetMonth := SampleMonth(i, months, numPoints);
      data := data + [monthlyData[targetMonth]];
      i := i + 1;
    }
  }

  /** `generateChartData`: nothing without a positive horizon and price, else the walked series, sampled. */
  method GenerateChartData(
    initialInvestment: real, monthlyDCA: real, currentPrice: real, targetPrice: real,
    months: int, model: PriceModel, boxMuller: (real, real) -> real
  ) returns (data: seq<Point>)
    ensures data == ChartData(Scenario(initialInvestment, monthlyDCA, currentPrice, targetPrice, months, model), boxMuller)
  {
    var sc := Scenario(initialInvestment, monthlyDCA, currentPrice, targetPrice, months, model);
    if months <= 0 || currentPrice <= 0.0 {
      return [];
    }
    var monthlyData := WalkMonths(sc, boxMuller);
    data := SampleSeries(monthlyData, months);
  }

  // ---------------------------------------------------------------------------
  // Properties of the series
  // ---------------------------------------------------------------------------

  /** No chart for a non-positive horizon or price. */
  lemma ChartDataEmpty(sc: Scenario, boxMuller: (real, real) -> real)
    ensures ChartData(sc, boxMuller) == [] <==> !Producible(sc)
  {
    if Producible(sc) {
      assert |ChartData(sc, boxMuller)| > 0;
    }
  }

  /** Month 0 is priced at today's price under every model. */
  lemma PriceAtStart(sc: Scenario, seed: bv32, boxMuller: (real, real) -> real)
    requires Producible(sc)
    ensures PriceAt(sc, seed, boxMuller, 0) == sc.currentPrice
  {
  }

  /** Without noise the price ends exactly at the target. */
  lemma PriceAtHorizon(sc: Scenario, seed: bv32, boxMuller: (real, real) -> real)
    requires Producible(sc) && sc.model != Volatile
    ensures PriceAt(sc, seed, boxMuller, sc.months) == sc.targetPrice
  {
  }

  /** A volatile price after month 0 never drops below 1% of today's price. */
  lemma VolatileFloor(sc: Scenario, seed: bv32, boxMuller: (real, real) -> real, m: nat)
    requires Producible(sc) && sc.model == Volatile && m > 0
    ensures PriceAt(sc, seed, boxMuller, m) >= 0.01 * sc.currentPrice
    ensures PriceAt(sc, seed, boxMuller, m) > 0.0
  {
  }

  /** Best case values every month's contributions at that month's price as if bought today. */
  lemma BestCaseValue(sc: Scenario, seed: bv32, boxMuller: (real, real) -> real, m: nat)
    requires Producible(sc) && sc.model == BestCase
    ensures MonthEntry(sc, seed, boxMuller, m).value
         == (sc.initial + sc.monthly * m as real) / sc.currentPrice * PriceAt(sc, seed, boxMuller, m)
  {
    BestCaseEntry(sc, CoinsAt(sc, seed, boxMuller, m), PriceAt(sc, seed, boxMuller, m), m);
  }

  /** The best-case valuation ignores the coins held. */
  lemma BestCaseEntry(sc: Scenario, coins: real, price: real, m: nat)
    requires Producible(sc) && sc.model == BestCase
    ensures EntryAt(sc, coins, price, m).value
         == (sc.initial + sc.monthly * m as real) / sc.currentPrice * price
  {
    var bought := sc.initial / sc.currentPrice + (sc.monthly * m as real) / sc.currentPrice;
    assert bought == (sc.initial + sc.monthly * m as real) / sc.currentPrice;
    assert bought * price == (sc.initial + sc.monthly * m as real) / sc.currentPrice * price;
  }

  /** The coin count never decreases from month to month. */
  lemma {:induction false} CoinsNeverDecrease(sc: Scenario, seed: bv32, boxMuller: (real, real) -> real, m: nat, m': nat)
    requires Producible(sc) && m <= m'
    ensures CoinsAt(sc, seed, boxMuller, m) <= CoinsAt(sc, seed, boxMuller, m')
    decreases m' - m
  {
    if m < m' {
      CoinsNeverDecrease(sc, seed, boxMuller, m, m' - 1);
    }
  }

  /** Only the volatile model looks at the generator: the others depend on neither its seed nor the Gaussian transform. */
  lemma {:induction false} NoiseFreeCoins(
    sc: Scenario, s1: bv32, bm1: (real, real) -> real, s2: bv32, bm2: (real, real) -> real, m: nat)
    requires Producible(sc) && sc.model != Volatile
    ensures CoinsAt(sc, s1, bm1, m) == CoinsAt(sc, s2, bm2, m)
  {
    if m > 0 {
      NoiseFreeCoins(sc, s1, bm1, s2, bm2, m - 1);
    }
  }

  /** The whole chart of a noise-free model is independent of the Gaussian transform. */
  lemma NoiseFreeChart(sc: Scenario, bm1: (real, real) -> real, bm2: (real, real) -> real)
    requires sc.model != Volatile
    ensures ChartData(sc, bm1) == ChartData(sc, bm2)
  {
    if Producible(sc) {
      var seed := NoiseSeed(sc);
      forall m | 0 <= m <= sc.months
        ensures MonthEntry(sc, seed, bm1, m) == MonthEntry(sc, seed, bm2, m)
      {
        NoiseFreeCoins(sc, seed, bm1, seed, bm2, m);
      }
      assert MonthlySeries(sc, seed, bm1) == MonthlySeries(sc, seed, bm2);
    }
  }

  /** A horizon of at most 36 months is charted at full resolution. */
  lemma ShortSeriesKept(sc: Scenario, boxMuller: (real, real) -> real)
    requires Producible(sc) && sc.months < MaxChartPoints
    ensures ChartData(sc, boxMuller) == MonthlySeries(sc, NoiseSeed(sc), boxMuller)
  {
  }

  /**
   * A longer horizon is cut to 37 entries of the full series, from month 0 to
   * the horizon, with strictly increasing months.
   */
  lemma LongSeriesSampled(sc: Scenario, boxMuller: (real, real) -> real)
    requires Producible(sc) && sc.months >= MaxChartPoints
    ensures var d := ChartData(sc, boxMuller);
      var full := MonthlySeries(sc, NoiseSeed(sc), boxMuller);
      && |d| == MaxChartPoints
      && d[0] == full[0]
      && d[|d| - 1] == full[sc.months]
      && (forall i :: 0 <= i < |d| ==> d[i] in full)
      && (forall i, j :: 0 <= i < j < |d| ==> d[i].month < d[j].month)
  {
    var d := ChartData(sc, boxMuller);
    var full := MonthlySeries(sc, NoiseSeed(sc), boxMuller);
    SampleMonthFirst(sc.months, MaxChartPoints);
    SampleMonthLast(sc.months, MaxChartPoints);
    forall i, j | 0 <= i < j < |d|
      ensures d[i].month < d[j].month
    {
      SampleMonthStrict(i, j, sc.months, MaxChartPoints);
    }
  }

  /**
   * The best-case chart ends on the value the summary cards show: the
   * summary (`calculateImagine`) is the best case whatever model is picked.
   */
  lemma BestCaseEndMatchesSummary(sc: Scenario, boxMuller: (real, real) -> real)
    requires Producible(sc) && sc.model == BestCase
    ensures ImagineCalc.CalculateImagine(
      sc.initial, sc.monthly, sc.currentPrice, sc.targetPrice, sc.months as real).Some?
    ensures var d := ChartData(sc, boxMuller);
      var summary := ImagineCalc.CalculateImagine(
        sc.initial, sc.monthly, sc.currentPrice, sc.targetPrice, sc.months as real).value;
      && d[|d| - 1].value == summary.portfolioValue
      && d[|d| - 1].invested == summary.totalInvested
  {
    ChartLast(sc, boxMuller);
    HorizonIsSummary(sc, NoiseSeed(sc), boxMuller);
  }

  /**
   * The summary reads the horizon as typed (`parseFloat`) while the chart reads
   * its whole part (`parseInt`): with a monthly contribution and a fractional
   * horizon, the chart's last point has not invested what the summary reports.
   */
  lemma FractionalHorizonMismatch(sc: Scenario, boxMuller: (real, real) -> real, frac: real)
    requires Producible(sc) && sc.model == BestCase
    requires sc.monthly != 0.0 && 0.0 < frac < 1.0
    ensures ImagineCalc.CalculateImagine(
      sc.initial, sc.monthly, sc.currentPrice, sc.targetPrice, sc.months as real + frac).Some?
    ensures var d := ChartData(sc, boxMuller);
      var summary := ImagineCalc.CalculateImagine(
        sc.initial, sc.monthly, sc.currentPrice, sc.targetPrice, sc.months as real + frac).value;
      |d| > 0 && d[|d| - 1].invested != summary.totalInvested
  {
    BestCaseEndMatchesSummary(sc, boxMuller);
    assert sc.monthly * (sc.months as real + frac) != sc.monthly * sc.months as real;
  }

  /** The best-case entry at the horizon is exactly what `calculateImagine` reports. */
  lemma HorizonIsSummary(sc: Scenario, seed: bv32, boxMuller: (real, real) -> real)
    requires Producible(sc) && sc.model == BestCase
    ensures ImagineCalc.CalculateImagine(
      sc.initial, sc.monthly, sc.currentPrice, sc.targetPrice, sc.months as real).Some?
    ensures MonthEntry(sc, seed, boxMuller, sc.months).value == ImagineCalc.CalculateImagine(
      sc.initial, sc.monthly, sc.currentPrice, sc.targetPrice, sc.months as real).value.portfolioValue
    ensures MonthEntry(sc, seed, boxMuller, sc.months).invested == ImagineCalc.CalculateImagine(
      sc.initial, sc.monthly, sc.currentPrice, sc.targetPrice, sc.months as real).value.totalInvested
  {
    BestCaseHorizon(sc, seed, boxMuller);
    var e := MonthEntry(sc, seed, boxMuller, sc.months);
    ImagineCalc.ImagineMatches(sc.initial, sc.monthly, sc.currentPrice, sc.targetPrice, sc.months as real,
                               e.invested, e.value);
  }

  /** Whatever the model, the chart ends on the horizon's entry. */
  lemma ChartLast(sc: Scenario, boxMuller: (real, real) -> real)
    requires Producible(sc)
    ensures var d := ChartData(sc, boxMuller);
      |d| > 0 && d[|d| - 1] == MonthEntry(sc, NoiseSeed(sc), boxMuller, sc.months)
  {
    if sc.months >= MaxChartPoints {
      LongSeriesSampled(sc, boxMuller);
    }
  }

  /** The best-case entry at the horizon: everything contributed, valued at the target. */
  lemma BestCaseHorizon(sc: Scenario, seed: bv32, boxMuller: (real, real) -> real)
    requires Producible(sc) && sc.model == BestCase
    ensures var e := MonthEntry(sc, seed, boxMuller, sc.months);
      && e.invested == sc.initial + sc.monthly * sc.months as real
      && e.value == (sc.initial + sc.monthly * sc.months as real) / sc.currentPrice * sc.targetPrice
  {
    BestCaseValue(sc, seed, boxMuller, sc.months);
    PriceAtHorizon(sc, seed, boxMuller);
    var coins := (sc.initial + sc.monthly * sc.months as real) / sc.currentPrice;
    assert coins * PriceAt(sc, seed, boxMuller, sc.months) == coins * sc.targetPrice;
  }

  // ---------------------------------------------------------------------------
  // Scrubber interpolation
  // ---------------------------------------------------------------------------

  /** Points `i` and `i + 1` enclose `month`. */
  predicate Brackets(data: seq<Point>, i: int, month: real)
    requires 0 <= i < |data| - 1
  {
    data[i].month <= month && data[i + 1].month >= month
  }

  /** How far `month` lies from `p` towards `q`, 0 for a bracket of zero width. */
  function Fraction(p: Point, q: Point, month: real): (t: real)
    ensures p.month <= month <= q.month ==> 0.0 <= t <= 1.0
    ensures q.month <= p.month ==> t == 0.0
    ensures p.month < q.month ==> p.month + (q.month - p.month) * t == month
  {
    var range := q.month - p.month;
    if range > 0.0 then (month - p.month) / range else 0.0
  }

  /** The straight-line point at `month` between `p` and `q`. */
  function Lerp(p: Point, q: Point, month: real): Point
  {
    var t := Fraction(p, q, month);
    Point(month, p.value + (q.value - p.value) * t, p.invested + (q.invested - p.invested) * t)
  }

  /** `x` lies between `a` and `b`, in either order. */
  predicate Between(x: real, a: real, b: real)
  {
    Min(a, b) <= x <= Max(a, b)
  }

  /** Inside its bracket an interpolated point never overshoots either neighbour. */
  lemma LerpBetween(p: Point, q: Point, month: real)
    requires p.month <= month <= q.month
    ensures Lerp(p, q, month).month == month
    ensures Between(Lerp(p, q, month).value, p.value, q.value)
    ensures Between(Lerp(p, q, month).invested, p.invested, q.invested)
  {
    var t := Fraction(p, q, month);
    assert 0.0 <= t <= 1.0;
    LinearBetween(p.value, q.value, t);
    LinearBetween(p.invested, q.invested, t);
  }

  /** A fraction of a span stays within it, whichever its sign. */
  lemma MulBounds(d: real, t: real)
    requires 0.0 <= t <= 1.0
    ensures Min(0.0, d) <= d * t <= Max(0.0, d)
  {
    if d >= 0.0 {
      ScaleDown(d, t);
    } else {
      ScaleDownNegative(d, t);
    }
  }

  /** A fraction of a non-negative amount lies between zero and the amount. */
  lemma ScaleDown(d: real, t: real)
    requires d >= 0.0 && 0.0 <= t <= 1.0
    ensures 0.0 <= d * t <= d
  {
    assert d * (1.0 - t) >= 0.0;
  }

  /** A fraction of a non-positive amount lies between the amount and zero. */
  lemma ScaleDownNegative(d: real, t: real)
    requires d <= 0.0 && 0.0 <= t <= 1.0
    ensures d <= d * t <= 0.0
  {
    var e := -d;
    ScaleDown(e, t);
    assert e * t == -(d * t);
  }

  /** Moving a fraction `t` of the way from `a` to `b` stays between them. */
  lemma LinearBetween(a: real, b: real, t: real)
    requires 0.0 <= t <= 1.0
    ensures Between(a + (b - a) * t, a, b)
  {
    MulBounds(b - a, t);
  }

  /** Interpolating exactly at either end of a proper bracket gives that end back. */
  lemma LerpAtEnds(p: Point, q: Point)
    requires p.month < q.month
    ensures Lerp(p, q, p.month) == p
    ensures Lerp(p, q, q.month) == q
  {
    var range := q.month - p.month;
    assert range / range == 1.0;
    assert Fraction(p, q, q.month) == 1.0;
  }

  /**
   * Once `month` is strictly inside the first and last months some
   * consecutive pair encloses it, whether or not the months are sorted.
   */
  lemma {:induction false} BracketExists(data: seq<Point>, month: real, lo: nat)
    requires lo < |data| - 1
    requires data[lo].month < month < data[|data| - 1].month
    ensures exists i :: lo <= i < |data| - 1 && Brackets(data, i, month)
    decreases |data| - lo
  {
    if data[lo + 1].month >= month {
      assert Brackets(data, lo, month);
    } else {
      BracketExists(data, month, lo + 1);
    }
  }

  /**
   * `interpolateAtMonth`: nothing for no data, the first or last point past
   * either end, otherwise the straight line across the first enclosing pair.
   */
  method InterpolateAtMonth(data: seq<Point>, month: real) returns (r: Option<Point>)
    ensures r.None? <==> data == []
    ensures data != [] && month <= data[0].month ==> r == Some(data[0])
    ensures data != [] && data[0].month < month && month >= data[|data| - 1].month
      ==> r == Some(data[|data| - 1])
    ensures data != [] && data[0].month < month < data[|data| - 1].month ==>
      exists i :: 0 <= i < |data| - 1 && Brackets(data, i, month)
        && (forall j :: 0 <= j < i ==> !Brackets(data, j, month))
        && r == Some(Lerp(data[i], data[i + 1], month))
  {
    if |data| == 0 {
      return None;
    }
    if month <= data[0].month {
      return Some(data[0]);
    }
    if month >= data[|data| - 1].month {
      return Some(data[|data| - 1]);
    }
    var i := 0;
    while i < |data| - 1
      invariant 0 <= i <= |data| - 1
      invariant forall j :: 0 <= j < i ==> !Brackets(data, j, month)
    {
      if data[i].month <= month && data[i + 1].month >= month {
        var range := data[i + 1].month - data[i].month;
        var t := if range > 0.0 then (month - data[i].month) / range else 0.0;
        var p := Point(month,
                       data[i].value + (data[i + 1].value - data[i].value) * t,
                       data[i].invested + (data[i + 1].invested - data[i].invested) * t);
        assert t == Fraction(data[i], data[i + 1], month);
        assert p == Lerp(data[i], data[i + 1], month);
        assert Brackets(data, i, month);
        return Some(p);
      }
      i := i + 1;
    }
    BracketExists(data, month, 0);
    assert false;
    r := None;
  }

  /** Months in strictly increasing order, as both generators produce past the short case. */
  predicate StrictlyIncreasing(data: seq<Point>)
  {
    forall i, j :: 0 <= i < j < |data| ==> data[i].month < data[j].month
  }

  /** On sorted data, scrubbing to an inner point's month lands on its left bracket and returns that point. */
  lemma InterpolateAtSamplePoint(data: seq<Point>, k: nat)
    requires StrictlyIncreasing(data) && 0 < k < |data| - 1
    ensures Brackets(data, k - 1, data[k].month)
    ensures forall j :: 0 <= j < k - 1 ==> !Brackets(data, j, data[k].month)
    ensures Lerp(data[k - 1], data[k], data[k].month) == data[k]
  {
    LerpAtEnds(data[k - 1], data[k]);
  }

  // ---------------------------------------------------------------------------
  // Scrub position
  // ---------------------------------------------------------------------------

  /** `evt.nativeEvent.locationX ?? evt.nativeEvent.offsetX ?? 0`. */
  function EventX(locationX: Option<real>, offsetX: Option<real>): (x: real)
    ensures locationX.Some? ==> x == locationX.value
    ensures locationX.None? && offsetX.Some? ==> x == offsetX.value
    ensures locationX.None? && offsetX.None? ==> x == 0.0
  {
    match locationX
    case Some(x) => x
    case None => match offsetX case Some(x) => x case None => 0.0
  }

  /**
   * `getFractionFromEvent`: `Math.max(0, Math.min(1, (x - 20) / chartW))`.
   * A zero chart width divides by zero: an infinity clamps to 0 or 1 and
   * `0 / 0` is `NaN`, which `Math.min`/`Math.max` pass on (`None`).
   */
  function ScrubFraction(x: real, chartW: real): (f: Option<real>)
    ensures f.Some? ==> 0.0 <= f.value <= 1.0
    ensures f.None? <==> chartW == 0.0 && x == PaddingLeft
    ensures chartW != 0.0 && 0.0 <= (x - PaddingLeft) / chartW <= 1.0 ==> f == Some((x - PaddingLeft) / chartW)
    ensures chartW != 0.0 && (x - PaddingLeft) / chartW < 0.0 ==> f == Some(0.0)
    ensures chartW != 0.0 && (x - PaddingLeft) / chartW > 1.0 ==> f == Some(1.0)
    ensures chartW == 0.0 && x > PaddingLeft ==> f == Some(1.0)
    ensures chartW == 0.0 && x < PaddingLeft ==> f == Some(0.0)
  {
    if chartW == 0.0 then
      if x > PaddingLeft then Some(1.0) else if x < PaddingLeft then Some(0.0) else None
    else
      Some(Max(0.0, Min(1.0, (x - PaddingLeft) / chartW)))
  }
}
