/**
 * The scenario calculators: the "Imagine If" DCA projection, the historical
 * "Time Machine" replay, and compound growth with monthly contributions,
 * together with the compound-growth chart series.
 *
 * Amounts and prices are exact reals. The monthly compounding rate
 * `Math.pow(1 + annualReturn, 1 / 12) - 1` is taken as the parameter `monthlyRate`.
 */
module ImagineCalc {
  import opened Wrappers
  import opened JsMath
  import opened Sampling

  /** `totalInvested > 0 ? value / totalInvested : 0`, shared by all three calculators. */
  function Multiplier(value: real, invested: real): (m: real)
    ensures invested > 0.0 ==> m * invested == value
    ensures invested <= 0.0 ==> m == 0.0
  {
    if invested > 0.0 then value / invested else 0.0
  }

  // ---------------------------------------------------------------------------
  // Imagine If: every coin bought at today's price
  // ---------------------------------------------------------------------------

  datatype ImagineResult = ImagineResult(
    totalInvested: real,
    totalCoins: real,
    portfolioValue: real,
    profit: real,
    multiplier: real)

  /**
   * `calculateImagine`: no result unless the price and the horizon are positive;
   * otherwise the money contributed over the whole horizon buys coins at
   * `currentPrice` and is valued at `targetPrice`.
   */
  function CalculateImagine(
    initialInvestment: real, monthlyDCA: real, currentPrice: real, targetPrice: real, months: real
  ): (r: Option<ImagineResult>)
    ensures r.None? <==> currentPrice <= 0.0 || months <= 0.0
    ensures r.Some? ==> r.value.totalInvested == initialInvestment + monthlyDCA * months
    ensures r.Some? ==> r.value.totalCoins * currentPrice == r.value.totalInvested
    ensures r.Some? ==> r.value.portfolioValue * currentPrice == r.value.totalInvested * targetPrice
    ensures r.Some? ==> r.value.profit == r.value.portfolioValue - r.value.totalInvested
    ensures r.Some? ==> (r.value.multiplier ==
      if r.value.totalInvested > 0.0 then targetPrice / currentPrice else 0.0)
  {
    if currentPrice <= 0.0 || months <= 0.0 then None
    else
      var initialCoins := initialInvestment / currentPrice;
      var dcaCoins := (monthlyDCA * months) / currentPrice;
      var totalCoins := initialCoins + dcaCoins;
      var totalInvested := initialInvestment + monthlyDCA * months;
      var portfolioValue := totalCoins * targetPrice;
      assert totalCoins * currentPrice == totalInvested;
      MultiplierIsPriceRatio(totalCoins, currentPrice, targetPrice, totalInvested);
      Some(ImagineResult(totalInvested, totalCoins, portfolioValue,
                         portfolioValue - totalInvested, Multiplier(portfolioValue, totalInvested)))
  }

  /** The portfolio value in closed form: everything contributed, at the target-to-today price ratio. */
  lemma ImagineValue(initialInvestment: real, monthlyDCA: real, currentPrice: real, targetPrice: real, months: real)
    requires currentPrice > 0.0 && months > 0.0
    ensures var r := CalculateImagine(initialInvestment, monthlyDCA, currentPrice, targetPrice, months);
      r.Some? && r.value.portfolioValue == (initialInvestment + monthlyDCA * months) / currentPrice * targetPrice
  {
    var r := CalculateImagine(initialInvestment, monthlyDCA, currentPrice, targetPrice, months);
    var pv := r.value.portfolioValue;
    var ti := r.value.totalInvested;
    assert pv * currentPrice == ti * targetPrice;
    assert pv == (ti * targetPrice) / currentPrice;
  }

  /** Any pair of figures equal to the closed forms is what `calculateImagine` reports. */
  lemma ImagineMatches(initialInvestment: real, monthlyDCA: real, currentPrice: real, targetPrice: real,
                       months: real, invested: real, value: real)
    requires currentPrice > 0.0 && months > 0.0
    requires invested == initialInvestment + monthlyDCA * months
    requires value == invested / currentPrice * targetPrice
    ensures CalculateImagine(initialInvestment, monthlyDCA, currentPrice, targetPrice, months).Some?
    ensures CalculateImagine(initialInvestment, monthlyDCA, currentPrice, targetPrice, months).value.totalInvested
         == invested
    ensures CalculateImagine(initialInvestment, monthlyDCA, currentPrice, targetPrice, months).value.portfolioValue
         == value
  {
    ImagineValue(initialInvestment, monthlyDCA, currentPrice, targetPrice, months);
  }

  /** Coins bought at one price and valued at another grow by exactly the price ratio. */
  lemma MultiplierIsPriceRatio(coins: real, buyPrice: real, sellPrice: real, invested: real)
    requires buyPrice > 0.0
    requires coins * buyPrice == invested
    ensures Multiplier(coins * sellPrice, invested) ==
      if invested > 0.0 then sellPrice / buyPrice else 0.0
  {
    if invested > 0.0 {
      assert coins == invested / buyPrice;
      calc {
        coins * sellPrice / invested;
        (invested / buyPrice) * sellPrice / invested;
        sellPrice / buyPrice;
      }
    }
  }

  /** $1000, no DCA, price doubles: 0.02 coins worth $2000, multiplier 2. */
  lemma ImagineDoubling()
    ensures CalculateImagine(1000.0, 0.0, 50000.0, 100000.0, 1.0)
         == Some(ImagineResult(1000.0, 0.02, 2000.0, 1000.0, 2.0))
  {
  }

  /** $1000, no DCA, price halves: a $500 loss, multiplier 0.5. */
  lemma ImagineHalving()
    ensures CalculateImagine(1000.0, 0.0, 50000.0, 25000.0, 1.0)
         == Some(ImagineResult(1000.0, 0.02, 500.0, -500.0, 0.5))
  {
  }

  /** A zero current price or a zero horizon gives no result. */
  lemma ImagineRejects()
    ensures CalculateImagine(1000.0, 100.0, 0.0, 50000.0, 12.0) == None
    ensures CalculateImagine(1000.0, 100.0, 50000.0, 100000.0, 0.0) == None
  {
  }

  // ---------------------------------------------------------------------------
  // Time Machine: what an investment made in the past is worth today
  // ---------------------------------------------------------------------------

  datatype TimeMachineResult = TimeMachineResult(
    shares: real,
    currentValue: real,
    profit: real,
    multiplier: real)

  /** `calculateTimeMachine`: no result unless both prices are positive. */
  function CalculateTimeMachine(investedAmount: real, historicalPrice: real, currentPrice: real)
    : (r: Option<TimeMachineResult>)
    ensures r.None? <==> historicalPrice <= 0.0 || currentPrice <= 0.0
    ensures r.Some? ==> r.value.shares * historicalPrice == investedAmount
    ensures r.Some? ==> r.value.currentValue == r.value.shares * currentPrice
    ensures r.Some? ==> r.value.currentValue * historicalPrice == investedAmount * currentPrice
    ensures r.Some? ==> r.value.profit == r.value.currentValue - investedAmount
    ensures r.Some? ==> (r.value.multiplier ==
      if investedAmount > 0.0 then currentPrice / historicalPrice else 0.0)
  {
    if historicalPrice <= 0.0 || currentPrice <= 0.0 then None
    else
      var shares := investedAmount / historicalPrice;
      var currentValue := shares * currentPrice;
      MultiplierIsPriceRatio(shares, historicalPrice, currentPrice, investedAmount);
      Some(TimeMachineResult(shares, currentValue, currentValue - investedAmount,
                             Multiplier(currentValue, investedAmount)))
  }

  /** $1000 at $10, now $100: 100 shares worth $10000, ten times the money. */
  lemma TimeMachineGain()
    ensures CalculateTimeMachine(1000.0, 10.0, 100.0) == Some(TimeMachineResult(100.0, 10000.0, 9000.0, 10.0))
  {
  }

  /** $1000 at $100, now $50: 10 shares worth $500, a $500 loss. */
  lemma TimeMachineLoss()
    ensures CalculateTimeMachine(1000.0, 100.0, 50.0) == Some(TimeMachineResult(10.0, 500.0, -500.0, 0.5))
  {
  }

  // ---------------------------------------------------------------------------
  // Compound growth
  // ---------------------------------------------------------------------------

  /** The number of monthly steps, `Math.round(years * 12)`. */
  function TotalMonths(years: real): (n: nat)
    requires years > 0.0
    ensures n as real - 0.5 <= years * 12.0 < n as real + 0.5
  {
    Round(years * 12.0)
  }

  /** The balance after `n` months of `balance = balance * (1 + monthlyRate) + contribution`. */
  function Balance(initial: real, contribution: real, monthlyRate: real, n: nat): real
  {
    if n == 0 then initial
    else Balance(initial, contribution, monthlyRate, n - 1) * (1.0 + monthlyRate) + contribution
  }

  /** Running `b` more months from the balance after `a` months is running `a + b` months. */
  lemma {:induction false} BalanceResume(initial: real, contribution: real, monthlyRate: real, a: nat, b: nat)
    ensures Balance(Balance(initial, contribution, monthlyRate, a), contribution, monthlyRate, b)
         == Balance(initial, contribution, monthlyRate, a + b)
  {
    if b > 0 {
      BalanceResume(initial, contribution, monthlyRate, a, b - 1);
    }
  }

  /** At a zero rate the balance is exactly what was put in. */
  lemma {:induction false} BalanceZeroRate(initial: real, contribution: real, n: nat)
    ensures Balance(initial, contribution, 0.0, n) == initial + contribution * n as real
  {
    if n > 0 {
      BalanceZeroRate(initial, contribution, n - 1);
    }
  }

  /** With non-negative money and a non-negative rate, the balance never falls below what was put in. */
  lemma {:induction false} BalanceAtLeastContributed(initial: real, contribution: real, monthlyRate: real, n: nat)
    requires initial >= 0.0 && contribution >= 0.0 && monthlyRate >= 0.0
    ensures Balance(initial, contribution, monthlyRate, n) >= initial + contribution * n as real
  {
    if n > 0 {
      BalanceAtLeastContributed(initial, contribution, monthlyRate, n - 1);
      var b := Balance(initial, contribution, monthlyRate, n - 1);
      assert b * (1.0 + monthlyRate) >= b by {
        assert b * monthlyRate >= 0.0;
      }
    }
  }

  /** No money in, no money out, whatever the rate. */
  lemma {:induction false} BalanceNothingIn(monthlyRate: real, n: nat)
    ensures Balance(0.0, 0.0, monthlyRate, n) == 0.0
  {
    if n > 0 {
      BalanceNothingIn(monthlyRate, n - 1);
    }
  }

  datatype CompoundResult = CompoundResult(
    finalValue: real,
    totalContributed: real,
    interestEarned: real,
    multiplier: real)

  /** `calculateCompoundGrowth`: no result for a non-positive horizon, else `Math.round(years * 12)` monthly steps. */
  method CalculateCompoundGrowth(
    initialInvestment: real, monthlyContribution: real, monthlyRate: real, years: real
  ) returns (r: Option<CompoundResult>)
    ensures r.None? <==> years <= 0.0
    ensures r.Some? ==> (r.value.finalValue ==
      Balance(initialInvestment, monthlyContribution, monthlyRate, TotalMonths(years)))
    ensures r.Some? ==> (r.value.totalContributed ==
      initialInvestment + monthlyContribution * TotalMonths(years) as real)
    ensures r.Some? ==> r.value.interestEarned == r.value.finalValue - r.value.totalContributed
    ensures r.Some? ==> r.value.multiplier == Multiplier(r.value.finalValue, r.value.totalContributed)
  {
    if years <= 0.0 {
      return None;
    }
    var totalMonths := TotalMonths(years);
    var balance := initialInvestment;
    var m := 1;
    while m <= totalMonths
      invariant 1 <= m <= totalMonths + 1
      invariant balance == Balance(initialInvestment, monthlyContribution, monthlyRate, m - 1)
    {
      balance := balance * (1.0 + monthlyRate) + monthlyContribution;
      m := m + 1;
    }
    var totalContributed := initialInvestment + monthlyContribution * totalMonths as real;
    r := Some(CompoundResult(balance, totalContributed, balance - totalContributed,
                             Multiplier(balance, totalContributed)));
  }

  /** How many points the compound chart has: `Math.min(Math.max(totalMonths + 1, 3), 49)`. */
  function CompoundPointCount(totalMonths: nat): (c: int)
    ensures 3 <= c <= 49
  {
    MinInt(MaxInt(totalMonths + 1, 3), 49)
  }

  /** The chart point for month `m`: the balance after `m` steps and the money put in by then. */
  function CompoundPoint(initial: real, contribution: real, monthlyRate: real, m: nat): Point
  {
    Point(m as real, Balance(initial, contribution, monthlyRate, m), initial + contribution * m as real)
  }

  /**
   * `generateCompoundChartData`: empty for a non-positive horizon; otherwise
   * evenly spaced months from 0 to the last month, each with its exact balance.
   */
  method GenerateCompoundChartData(
    initialInvestment: real, monthlyContribution: real, monthlyRate: real, years: real
  ) returns (data: seq<Point>)
    ensures years <= 0.0 ==> data == []
    ensures years > 0.0 ==> |data| == CompoundPointCount(TotalMonths(years))
    ensures years > 0.0 ==> forall i :: 0 <= i < |data| ==>
      data[i] == CompoundPoint(initialInvestment, monthlyContribution, monthlyRate,
                               SampleMonth(i, TotalMonths(years), |data|))
    ensures years > 0.0 ==> data[0].month == 0.0
    ensures years > 0.0 ==> (data[|data| - 1] ==
      CompoundPoint(initialInvestment, monthlyContribution, monthlyRate, TotalMonths(years)))
    ensures forall i, j :: 0 <= i <= j < |data| ==> 0.0 <= data[i].month <= data[j].month
  {
    if years <= 0.0 {
      return [];
    }
    var totalMonths := TotalMonths(years);
    var numPoints := CompoundPointCount(totalMonths);
    data := SampleCompound(initialInvestment, monthlyContribution, monthlyRate, totalMonths, numPoints);
    CompoundEnds(initialInvestment, monthlyContribution, monthlyRate, totalMonths, numPoints, data);
  }

  /** Steps the balance on from month `from` to month `to`, one month at a time. */
  method StepBalance(initial: real, contribution: real, monthlyRate: real, balance: real, from: nat, to: nat)
    returns (b: real)
    requires from <= to
    requires balance == Balance(initial, contribution, monthlyRate, from)
    ensures b == Balance(initial, contribution, monthlyRate, to)
  {
    b := balance;
    var m := from + 1;
    while m <= to
      invariant from + 1 <= m <= to + 1
      invariant b == Balance(initial, contribution, monthlyRate, m - 1)
    {
      b := b * (1.0 + monthlyRate) + contribution;
      m := m + 1;
    }
  }

  /** The sampling loop of `generateCompoundChartData`: one point per sampled month, the balance carried forward. */
  method SampleCompound(initial: real, contribution: real, monthlyRate: real, totalMonths: nat, numPoints: nat)
    returns (data: seq<Point>)
    requires numPoints >= 2
    ensures |data| == numPoints
    ensures forall k :: 0 <= k < numPoints ==>
      data[k] == CompoundPoint(initial, contribution, monthlyRate, SampleMonth(k, totalMonths, numPoints))
  {
    data := [];
    var balance := initial;
    var lastComputedMonth: nat := 0;
    var i := 0;
    while i < numPoints
      invariant 0 <= i <= numPoints
      invariant |data| == i
      invariant forall k :: 0 <= k < i ==>
        data[k] == CompoundPoint(initial, contribution, monthlyRate, SampleMonth(k, totalMonths, numPoints))
      invariant lastComputedMonth == if i == 0 then 0 else SampleMonth(i - 1, totalMonths, numPoints)
      invariant balance == Balance(initial, contribution, monthlyRate, lastComputedMonth)
    {
      var targetMonth := SampleMonth(i, totalMonths, numPoints);
      if i > 0 {
        SampleMonthMonotone(i - 1, i, totalMonths, numPoints);
      }
      balance := StepBalance(initial, contribution, monthlyRate, balance, lastComputedMonth, targetMonth);
      lastComputedMonth := targetMonth;
      var totalInvested := initial + contribution * targetMonth as real;
      var point := Point(targetMonth as real, balance, totalInvested);
      assert point == CompoundPoint(initial, contribution, monthlyRate, targetMonth);
      data := data + [point];
      i := i + 1;
    }
  }

  /** A sampled compound chart starts at month 0, ends at the last month and never goes back in time. */
  lemma CompoundEnds(initial: real, contribution: real, monthlyRate: real, totalMonths: nat, numPoints: nat,
                     data: seq<Point>)
    requires numPoints >= 2 && |data| == numPoints
    requires forall k :: 0 <= k < numPoints ==>
      data[k] == CompoundPoint(initial, contribution, monthlyRate, SampleMonth(k, totalMonths, numPoints))
    ensures data[0].month == 0.0
    ensures data[|data| - 1] == CompoundPoint(initial, contribution, monthlyRate, totalMonths)
    ensures forall i, j :: 0 <= i <= j < |data| ==> 0.0 <= data[i].month <= data[j].month
  {
    SampleMonthFirst(totalMonths, numPoints);
    SampleMonthLast(totalMonths, numPoints);
    forall i, j | 0 <= i <= j < |data|
      ensures 0.0 <= data[i].month <= data[j].month
    {
      SampleMonthMonotone(i, j, totalMonths, numPoints);
    }
  }

  /** The last chart point agrees with the summary: same balance, same total put in. */
  lemma ChartEndMatchesSummary(initial: real, contribution: real, monthlyRate: real, years: real)
    requires years > 0.0
    ensures var n := TotalMonths(years);
      var last := CompoundPoint(initial, contribution, monthlyRate,
                                SampleMonth(CompoundPointCount(n) - 1, n, CompoundPointCount(n)));
      last.value == Balance(initial, contribution, monthlyRate, n) &&
      last.invested == initial + contribution * n as real
  {
    LastPointIsHorizon(initial, contribution, monthlyRate, TotalMonths(years));
  }

  /** The last of the evenly spaced points sits at month `n` itself. */
  lemma LastPointIsHorizon(initial: real, contribution: real, monthlyRate: real, n: nat)
    ensures CompoundPoint(initial, contribution, monthlyRate, SampleMonth(CompoundPointCount(n) - 1, n, CompoundPointCount(n)))
         == CompoundPoint(initial, contribution, monthlyRate, n)
  {
    SampleMonthLast(n, CompoundPointCount(n));
  }
}
