# imagine-calculator: a verified model of the calculation core

This project models, in Dafny, the calculation code behind the
imagine-calculator app: the "Imagine If" dollar-cost-averaging projection, the
"Time Machine" historical replay, compound growth with monthly contributions,
the chart engine of the growth chart (seeded mulberry32 noise, the
month-by-month series under the best-case, linear and volatile price models,
downsampling to at most 37 points, and interpolation for the scrubber), the
three percentage calculators, the key-entry state machine of the standard
calculator, the responsive layout figures and the error-message
classification of the live-price hook.

Amounts and prices are exact `real`s. `Math.round(x)` is `Floor(x + 1/2)`.
The monthly compounding rate `Math.pow(1 + annualReturn, 1/12) - 1` is a
parameter `monthlyRate`. The Box-Muller transform `sqrt(-2 ln u1) cos(2 pi u2)`
is a function parameter `boxMuller`. The mulberry32 counter is a `bv32`.
JavaScript keeps it in a double, but every use of it goes through `Math.imul`,
`>>>`, `^` and `|`, which all work modulo 2^32.

Modules, one per source file:

- `ImagineCalc` covers `src/utils/imaginecalc.js`. The two closed-form
  calculators are functions. `calculateCompoundGrowth` and
  `generateCompoundChartData` are methods with loops, proved against the
  recurrence `Balance`. `Sampling` holds the evenly spaced month selection
  that this chart and the growth chart share. `JsMath` holds `Math.round`,
  `min`, `max` and `abs`.
- `SeededNoise` and `GrowthChart` cover `src/components/GrowthChart.js`.
  mulberry32 is a class whose `Next` advances the counter. `generateChartData`
  is a method: a month loop over a running coin count, then a sampling loop.
  Both loops are proved equal to the functions `MonthlySeries` and
  `Downsample`. `interpolateAtMonth` is a search loop.
- `Calculate` covers `src/utils/calculate.js`. Its inputs arrive already
  parsed: `None` stands for a `NaN` from `parseFloat`.
- `StandardCalc` covers `src/components/StandardCalc.js`. It is a class with
  the two state cells `display` and `justEvaluated`, and a `Press` method, one
  call per button. `evaluate` (the expression compiler) and `formatDisplay`
  are parameters of `Press`.
- `Responsive` covers `src/utils/useResponsive.js`, using the `BREAKPOINTS`
  of `src/utils/theme.js:82-87`.
- `CryptoPrices` covers `friendlyError` in `src/utils/useCryptoPrices.js`.

Some consequences of the code as written:

- The summary cards of the Imagine If screen are always the best case.
  `calculateImagine` takes five parameters, and the sixth argument
  (`dcaModel`) passed at `src/components/ImagineCalc.js:101` is ignored.
  `BestCaseEndMatchesSummary` proves that the best-case chart ends on the
  summary figures when the horizon is a whole number of months. The screen
  reads the horizon with `parseFloat` for the summary
  (`src/components/ImagineCalc.js:99`) but with `parseInt` for the chart
  (`src/components/ImagineCalc.js:112`). For a fractional horizon such as
  `12.5`, the summary invests `initial + monthly × 12.5` and the chart ends
  at `initial + monthly × 12`; `FractionalHorizonMismatch` proves that the two
  differ whenever the monthly amount is not zero.
- Compound growth has no "no result" case for zero contributions. Only
  `years <= 0` gives `null`.
- The interpolator returns a copy of the end points. Inside the series it
  uses the first consecutive pair that encloses the month, whether or not
  the months are sorted. For any numeric month its final fallback
  (`GrowthChart.js:156`) can never be reached: `BracketExists` proves that
  some pair always encloses the month once the two early returns fail. A
  `NaN` month fails every test and does reach it (see "Left out").
- The display can become empty (5, ±, ⌫, ± leaves nothing, as
  `EmptyDisplayReached` shows). Two operators in a row leave only the second
  on a non-empty display that does not start with white space
  (`ConsecutiveOperators`), but not on the empty display: + then × gives
  `× ` where × alone gives ` × ` (`EmptyDisplayOperators`).
- Pressing ± twice gives the display back, with two exceptions that
  `NegateTwice` states in full. The display `-0` ends as `0`. A display
  with two leading minus signs loses both.

## Model

| member | source | states |
|---|---|---|
| `JsMath.Round` | src/utils/imaginecalc.js:60 | `Math.round` returns the integer within half a unit of its argument, halves going up |
| `ImagineCalc.Multiplier` | src/utils/imaginecalc.js:20 | the multiplier times the amount invested is the value; the multiplier is 0 when nothing was invested |
| `ImagineCalc.CalculateImagine` | src/utils/imaginecalc.js:5-23 | no result exactly when the price or the horizon is not positive; otherwise the invested total is initial + monthly × months, the coins times the price give back the invested total, profit is value − invested, and the multiplier is target/current (0 if nothing invested) |
| `ImagineCalc.ImagineValue` | src/utils/imaginecalc.js:14-18 | the portfolio value is (initial + monthly × months) / currentPrice × targetPrice |
| `ImagineCalc.ImagineMatches` | src/utils/imaginecalc.js:14-18 | any figures equal to those closed forms are exactly what the calculator reports |
| `ImagineCalc.MultiplierIsPriceRatio` | src/utils/imaginecalc.js:18-20 | coins bought at one price and valued at another grow by the price ratio, or show multiplier 0 when nothing was invested |
| `ImagineCalc.ImagineDoubling` | __tests__/imaginecalc.test.js:9-16 | $1000 with no DCA when the price doubles: 0.02 coins worth $2000, profit $1000, multiplier 2 |
| `ImagineCalc.ImagineHalving` | __tests__/imaginecalc.test.js:48-52 | when the price halves: a $500 loss and multiplier 0.5 |
| `ImagineCalc.ImagineRejects` | __tests__/imaginecalc.test.js:36-46 | a zero current price or a zero horizon gives no result |
| `ImagineCalc.CalculateTimeMachine` | src/utils/imaginecalc.js:28-41 | no result exactly when either price is not positive; otherwise shares × historical price = invested, current value = shares × current price, profit = value − invested, multiplier = current/historical (0 if nothing invested) |
| `ImagineCalc.TimeMachineGain` | __tests__/imaginecalc.test.js:69-75 | $1000 bought at $10 and now at $100 gives 100 shares, worth $10000, multiplier 10 |
| `ImagineCalc.TimeMachineLoss` | __tests__/imaginecalc.test.js:89-95 | $1000 bought at $100 and now at $50 gives 10 shares, worth $500, a $500 loss, multiplier 0.5 |
| `ImagineCalc.TotalMonths` | src/utils/imaginecalc.js:60 | the step count is the whole number nearest to years × 12 |
| `ImagineCalc.BalanceResume` | src/utils/imaginecalc.js:95-105 | resuming the recurrence from the balance after a months for b more months gives the balance after a + b months, which is why the chart can carry its balance forward |
| `ImagineCalc.BalanceZeroRate` | src/utils/imaginecalc.js:63-68 | at a zero rate the final balance equals the total contributed |
| `ImagineCalc.BalanceAtLeastContributed` | src/utils/imaginecalc.js:63-69 | with non-negative amounts and rate, the balance is never below the total contributed, so the interest earned is never negative |
| `ImagineCalc.BalanceNothingIn` | src/utils/imaginecalc.js:63-66 | with nothing put in, the balance stays 0 whatever the rate |
| `ImagineCalc.CalculateCompoundGrowth` | src/utils/imaginecalc.js:52-73 | no result exactly when years ≤ 0; otherwise the final value is the balance after round(years × 12) monthly steps, the total contributed is initial + monthly × months, interest = final − contributed, and the multiplier is as above |
| `ImagineCalc.CompoundPointCount` | src/utils/imaginecalc.js:91 | the compound chart has between 3 and 49 points |
| `ImagineCalc.GenerateCompoundChartData` | src/utils/imaginecalc.js:79-112 | empty when years ≤ 0; otherwise it has min(max(months + 1, 3), 49) points; point i is the exact balance and money put in at the i-th evenly spaced month; it starts at month 0, ends at the last month with its balance, and months never decrease |
| `ImagineCalc.StepBalance` | src/utils/imaginecalc.js:101-104 | advancing the balance from one month to a later one gives the balance of the later month |
| `ImagineCalc.SampleCompound` | src/utils/imaginecalc.js:95-109 | the sampling loop produces one point per sampled month, carrying the balance between samples without error |
| `ImagineCalc.CompoundEnds` | src/utils/imaginecalc.js:98-109 | the sampled compound chart starts at month 0, ends at the final month and its months never decrease |
| `ImagineCalc.ChartEndMatchesSummary` | src/utils/imaginecalc.js:95-108 | the last chart point has the summary's final value and total contributed |
| `ImagineCalc.LastPointIsHorizon` | src/utils/imaginecalc.js:91-99 | the last evenly spaced point is the horizon month itself |
| `Sampling.Step` | src/utils/imaginecalc.js:92 | the step spreads the last month over count − 1 gaps, and is at least one month when there are at least as many months as gaps |
| `Sampling.SampleMonth` | src/utils/imaginecalc.js:99 | the sampled month never passes the last month |
| `Sampling.SampleMonthFirst` | src/components/GrowthChart.js:131 | the first sample is month 0 |
| `Sampling.SampleMonthLast` | src/components/GrowthChart.js:128-131 | the last sample is exactly the last month, so the end of the series is never dropped |
| `Sampling.SampleMonthUncapped` | src/components/GrowthChart.js:131 | within the sampled range the `Math.min` cap never changes the rounded month |
| `Sampling.SampleMonthMonotone` | src/utils/imaginecalc.js:98-99 | later samples never pick an earlier month |
| `Sampling.SampleMonthStrict` | src/components/GrowthChart.js:125-133 | when there are at least as many months as gaps, samples pick strictly increasing months, so no entry is repeated |
| `SeededNoise.Draw` | src/components/GrowthChart.js:62-64 | every output is a 32-bit word over 2^32, in [0, 1) |
| `SeededNoise.Stream` | src/components/GrowthChart.js:59-66 | the first n outputs of a generator depend only on its seed, and all lie in [0, 1) |
| `SeededNoise.AdvanceAdd` | src/components/GrowthChart.js:61 | advancing the counter a times then b times is advancing it a + b times, modulo 2^32 |
| `SeededNoise.AdvanceTwice` | src/components/GrowthChart.js:73-74 | two calls advance the counter by two increments |
| `SeededNoise.StreamSplit` | src/components/GrowthChart.js:59-66 | the outputs after a calls are the stream restarted from the counter after a calls |
| `SeededNoise.StreamLater` | src/components/GrowthChart.js:61-64 | output a + k of a stream is output k of the stream restarted after a calls |
| `SeededNoise.Mulberry32.constructor` | src/components/GrowthChart.js:59 | the counter starts at the seed modulo 2^32 |
| `SeededNoise.Mulberry32.Next` | src/components/GrowthChart.js:60-65 | one call adds 0x6d2b79f5 to the counter modulo 2^32 and returns the mix of the new counter, in [0, 1) |
| `SeededNoise.HashSeed` | src/components/GrowthChart.js:68-70 | the seed is the weighted sum 7, 13, 31, 37, 41 of the five inputs, times 100, rounded |
| `SeededNoise.HashSeedNextMonth` | src/components/GrowthChart.js:68-70 | one more month on the horizon moves the seed by exactly 4100 |
| `SeededNoise.GuardFirstDraw` | src/components/GrowthChart.js:75 | a first draw of 0 is replaced by 0.0001, and any other draw is kept, so the logarithm always gets a positive argument |
| `SeededNoise.GaussianRandom` | src/components/GrowthChart.js:72-76 | exactly two draws are taken and the first is guarded |
| `GrowthChart.Purchase` | src/components/GrowthChart.js:119-121 | coins are bought exactly when m < months, the model is not best case, the price is positive and the monthly amount is positive, and never a negative amount |
| `GrowthChart.MonthlySeries` | src/components/GrowthChart.js:92-117 | the full series has months + 1 entries; entry m is month m with invested = initial + monthly × m; month 0 is worth the initial amount |
| `GrowthChart.ChartPointCount` | src/components/GrowthChart.js:125 | the point budget is between 3 and 37, and it is smaller than the series exactly when months ≥ 37 |
| `GrowthChart.DrawNoise` | src/components/GrowthChart.js:101-102 | one Gaussian consumes two generator calls |
| `GrowthChart.MonthPrice` | src/components/GrowthChart.js:99-105 | the month's price is the trend, perturbed and floored for the volatile model after month 0, and the generator has advanced 2m calls |
| `GrowthChart.ValueMonth` | src/components/GrowthChart.js:107-116 | the month's entry values the best-case coins or the coins held, at the month's price |
| `GrowthChart.BuyMonth` | src/components/GrowthChart.js:118-121 | the coin count grows by the month's purchase |
| `GrowthChart.WalkMonths` | src/components/GrowthChart.js:86-122 | the month loop, with a generator created only for the volatile model, produces exactly the full series |
| `GrowthChart.SampleSeries` | src/components/GrowthChart.js:124-134 | the sampling loop produces exactly the downsampled series |
| `GrowthChart.GenerateChartData` | src/components/GrowthChart.js:82-135 | the method returns the specified chart data for every input |
| `GrowthChart.ChartDataEmpty` | src/components/GrowthChart.js:83 | the chart is empty exactly when months ≤ 0 or the price is not positive |
| `GrowthChart.PriceAtStart` | src/components/GrowthChart.js:99-101 | month 0 is priced at today's price under every model |
| `GrowthChart.PriceAtHorizon` | src/components/GrowthChart.js:99 | without noise the price at the horizon is the target |
| `GrowthChart.VolatileFloor` | src/components/GrowthChart.js:101-105 | a volatile price after month 0 is at least 1% of today's price, hence positive |
| `GrowthChart.BestCaseValue` | src/components/GrowthChart.js:109-111 | a best-case entry is worth (initial + monthly × m) / currentPrice × the month's price |
| `GrowthChart.BestCaseEntry` | src/components/GrowthChart.js:110-111 | best case ignores the coins held |
| `GrowthChart.CoinsNeverDecrease` | src/components/GrowthChart.js:119-121 | under linear and volatile the coin count never decreases from month to month |
| `GrowthChart.NoiseFreeCoins` | src/components/GrowthChart.js:86-88 | outside the volatile model the coins depend on neither the seed nor the Gaussian transform |
| `GrowthChart.NoiseFreeChart` | src/components/GrowthChart.js:86-101 | outside the volatile model the whole chart is independent of the Gaussian transform |
| `GrowthChart.ShortSeriesKept` | src/components/GrowthChart.js:125-126 | a horizon under 37 months is returned at full resolution, unchanged |
| `GrowthChart.LongSeriesSampled` | src/components/GrowthChart.js:125-134 | a longer horizon is cut to 37 entries of the full series, starting with month 0, ending with the horizon, months strictly increasing |
| `GrowthChart.ChartLast` | src/components/GrowthChart.js:124-134 | whatever the model, the chart ends on the horizon's entry |
| `GrowthChart.BestCaseEndMatchesSummary` | src/components/GrowthChart.js:107-111 | the best-case chart ends on the portfolio value and total invested that `calculateImagine` reports |
| `GrowthChart.FractionalHorizonMismatch` | src/components/ImagineCalc.js:96-112 | with a non-zero monthly amount and a fractional horizon, the best-case chart's last invested figure differs from the summary's total invested |
| `GrowthChart.HorizonIsSummary` | src/components/GrowthChart.js:95-111 | the best-case entry at the horizon equals the summary figures |
| `GrowthChart.BestCaseHorizon` | src/components/GrowthChart.js:99-111 | at the horizon the best-case entry is everything contributed, valued at the target |
| `GrowthChart.Fraction` | src/components/GrowthChart.js:147-148 | t lies in [0,1] inside the bracket, is 0 for a bracket of zero width, and otherwise maps back to the month |
| `GrowthChart.LerpBetween` | src/components/GrowthChart.js:149-153 | the interpolated point has the queried month, and its value and invested amount lie between the bracketing points |
| `GrowthChart.LerpAtEnds` | src/components/GrowthChart.js:146-153 | interpolating at either end of a proper bracket gives that end point |
| `GrowthChart.BracketExists` | src/components/GrowthChart.js:145-156 | a month strictly between the first and last months always has an enclosing consecutive pair |
| `GrowthChart.InterpolateAtMonth` | src/components/GrowthChart.js:140-157 | no result exactly for empty data; the first point at or before the first month; the last point at or after the last month; otherwise the straight line across the first enclosing pair |
| `GrowthChart.InterpolateAtSamplePoint` | src/components/GrowthChart.js:145-153 | on sorted data, scrubbing to an inner point's month returns that very point |
| `GrowthChart.EventX` | src/components/GrowthChart.js:264 | the location falls back from `locationX` to `offsetX` to 0 |
| `GrowthChart.ScrubFraction` | src/components/GrowthChart.js:265-266 | the scrub fraction is clamped to [0,1]; a zero chart width gives 0 or 1 by the sign of the offset and NaN (no value) at the padding itself |
| `Calculate.Calculate` | src/utils/calculate.js:5-14 | missing numbers and unknown kinds give no result; whatIs × 100 = a × b; whatPercent has no result exactly when b = 0, otherwise result × b = a × 100; change has no result exactly when a = 0, otherwise result × abs(a) = (b − a) × 100 |
| `Calculate.PercentOfRoundTrip` | src/utils/calculate.js:9-10 | asking what percent of b the p% of b is gives p back |
| `Calculate.ChangeRoundTrip` | src/utils/calculate.js:11-12 | applying a change of c percent to a non-zero a and asking for the change gives c back |
| `Calculate.ChangeFromItself` | __tests__/calculate.test.js:117-119 | no movement is a change of 0 |
| `Calculate.ChangeSign` | src/utils/calculate.js:11-12 | the change is positive exactly for a rise and negative exactly for a fall, whatever the sign of a |
| `Calculate.Examples` | __tests__/calculate.test.js:9-161 | the worked examples of the tests |
| `Calculate.FormatResult` | src/utils/calculate.js:16-17 | a missing result is shown as the em dash |
| `StandardCalc.Symbol` | src/components/StandardCalc.js:18-24 | every operator button inserts an operator character |
| `StandardCalc.SymbolOnto` | src/components/StandardCalc.js:58 | every operator character belongs to a button |
| `StandardCalc.Trim` | src/components/StandardCalc.js:115 | the trimmed display has white space on neither end |
| `StandardCalc.TrimIsMiddle` | src/components/StandardCalc.js:115 | `trim` keeps a contiguous middle of the string and removes only white space on either side of it |
| `StandardCalc.TrimTrimmed` | src/components/StandardCalc.js:115 | a string with no white space at either end is its own trim |
| `StandardCalc.LastOperand` | src/components/StandardCalc.js:120-121 | the last operand is the longest suffix free of operators, preceded by an operator if it is not the whole display |
| `StandardCalc.LastOperandAppend` | src/components/StandardCalc.js:120-123 | typing a non-operator extends the last operand by that character |
| `StandardCalc.Backspaced` | src/components/StandardCalc.js:77 | a display of length ≤ 1 becomes `0`, otherwise exactly the last character goes |
| `StandardCalc.Negated` | src/components/StandardCalc.js:89-92 | `0` stays `0`; otherwise a leading `-` is removed or added |
| `StandardCalc.NegateTwice` | src/components/StandardCalc.js:88-93 | ± twice restores the display exactly when it is not `-0` and does not start with two minus signs |
| `StandardCalc.WithOperator` | src/components/StandardCalc.js:114-117 | the display ends in the operator and a space; an operator already at the end of the trimmed display is replaced, otherwise ` op ` is appended |
| `StandardCalc.ConsecutiveOperators` | src/components/StandardCalc.js:114-117 | on a non-empty display that does not start with white space, two operators in a row leave only the second |
| `StandardCalc.EmptyDisplayReached` | src/components/StandardCalc.js:76-93 | 5, ±, ⌫, ± leaves the empty display |
| `StandardCalc.EmptyDisplayOperators` | src/components/StandardCalc.js:114-117 | on the empty display + then × gives `× `, while × alone gives ` × `, so the second operator does not simply replace the first |
| `StandardCalc.WithDot` | src/components/StandardCalc.js:119-124 | the last operand ends up with a point; a point already in the operand means no change, otherwise exactly a point is appended (`0` becomes `0.`) |
| `StandardCalc.DotIdempotent` | src/components/StandardCalc.js:119-121 | a second point in the same operand does nothing |
| `StandardCalc.WithDigit` | src/components/StandardCalc.js:125-126 | a digit replaces a lone `0` and is appended otherwise |
| `StandardCalc.NoLeadingZero` | src/components/StandardCalc.js:125 | typing digits on a fresh display never leaves a leading zero |
| `StandardCalc.Calculator.constructor` | src/components/StandardCalc.js:53-54 | a fresh calculator shows `0` and has nothing evaluated |
| `StandardCalc.Calculator.Press` | src/components/StandardCalc.js:69-132 | C resets; ⌫ deletes and clears the flag; = and % leave everything unchanged on a failed evaluation and otherwise show the result (÷100 for %) and set the flag; ± leaves the flag; after an evaluation an operator continues the expression and a digit or point starts afresh; operators, points and digits clear the flag |
| `Responsive.UseResponsive` | src/utils/useResponsive.js:9-23 | width and height pass through; mobile below 640, tablet from 640 below 1024, desktop from 1024; the column is at most 720 wide; the padding is at least 20, and exactly 20 below 1024 |
| `Responsive.ExactlyOneLayout` | src/utils/useResponsive.js:15-17 | exactly one of the three layout flags holds for every width |
| `Responsive.LayoutMonotone` | src/utils/useResponsive.js:15-21 | a wider window never selects a smaller layout, a narrower column or less padding |
| `Responsive.DesktopCentred` | src/utils/useResponsive.js:19-21 | on a desktop the 720-wide column is centred: padding on both sides plus the column is the window width |
| `Responsive.NarrowFilled` | src/utils/useResponsive.js:19-21 | up to 760 wide the column fills the window between two 20-pixel paddings |
| `CryptoPrices.Text` | src/utils/useCryptoPrices.js:15-18 | each of the four explanations is a non-empty text |
| `CryptoPrices.TextsDistinct` | src/utils/useCryptoPrices.js:15-18 | the four explanations are pairwise different |
| `CryptoPrices.IncludesOccurs` | src/utils/useCryptoPrices.js:15-17 | `includes` finds a substring exactly when it occurs at some position |
| `CryptoPrices.MissingChar` | src/utils/useCryptoPrices.js:15-17 | a message lacking one character of a pattern cannot include it |
| `CryptoPrices.MessageText` | src/utils/useCryptoPrices.js:14 | a missing message is treated as the empty string |
| `CryptoPrices.Classify` | src/utils/useCryptoPrices.js:13-19 | a rate limit is reported exactly for `429` or `rate`; access denied exactly for `403` with no rate-limit sign; a network error exactly for `Load failed`, `fetch` or `network` with none of the earlier signs; the generic text exactly otherwise |
| `CryptoPrices.FriendlyError` | src/utils/useCryptoPrices.js:13-19 | the result is always one of the four fixed texts, the one for the rule that applies |
| `CryptoPrices.RateLimitFirst` | src/utils/useCryptoPrices.js:15 | any message containing `429` is a rate limit, whatever else it contains |
| `CryptoPrices.MissingMessage` | src/utils/useCryptoPrices.js:14-18 | a missing or empty message gets the generic text |
| `CryptoPrices.TooManyRequests` | src/utils/useCryptoPrices.js:15 | `HTTP 429` is a rate limit |
| `CryptoPrices.Forbidden` | src/utils/useCryptoPrices.js:16 | `HTTP 403` is access denied |
| `CryptoPrices.FailedFetch` | src/utils/useCryptoPrices.js:17 | `Failed to fetch` is a network error |
| `CryptoPrices.ServerError` | src/utils/useCryptoPrices.js:18 | `HTTP 500` gets the generic text |

## Left out

- Rendering: SVG path and scale building, tooltip placement, animations and
  styling are UI with no calculation in them.
- Number-to-text formatting (`formatDisplay`, `formatUSD`,
  `formatCryptoAmount`, `formatCompact`, `formatMonth` and the numeric branch
  of `formatResult`) depends on the platform's locale. `Press` takes the
  formatter as a parameter, and `FormatResult` takes the formatted text.
- `evaluate` in `StandardCalc.js` compiles the display as code. It is a
  parameter of `Press` returning `Option<real>`, and the live preview and
  copy-to-clipboard that use it are not modelled.
- `Math.pow` (the monthly rate) and the logarithm, square root and cosine of
  the Gaussian transform are parameters, so no property depends on their
  values.
- IEEE doubles: arithmetic is exact over `real`. Rounding error, `-0`,
  infinities and `NaN` are not modelled, except the zero chart width in
  `ScrubFraction`.
- InterpolateAtMonth: takes a `real` month, so the `NaN` month that a zero
  chart width produces at the padding (`GrowthChart.js:251-252` with
  `GrowthChart.js:265-266`, where `ScrubFraction` gives no value) is not an
  input; in JavaScript that month fails every comparison and the function
  returns the last point from its final fallback (`GrowthChart.js:156`).
- Strings are sequences of Unicode scalar values, while JavaScript strings
  are UTF-16 code units. The two differ only in `length <= 1` and
  `slice(0, -1)` of the backspace key (`StandardCalc.js:77`), and only if
  the display formatter returns characters outside the Basic Multilingual
  Plane.
- `parseFloat`/`parseInt` and the `|| 0` defaults in the calculator screens:
  the calculators take already-parsed numbers. `generateChartData` receives
  whole months, as `parseInt` gives it.
- The price model is a three-valued datatype. In JavaScript any other string
  behaves like `'linear'`.
- React state batching: `Press` applies each key press to the current state
  at once, as a single render cycle does.
- Fetching prices, the refresh timer and the rest of `useCryptoPrices`, the
  history API, the build scripts, the theme's storage and the clipboard are
  I/O.
- The Time Machine screen's year and price lookup reads tables that
  `src/utils/constants.js` does not define.
- The chart component's use of externally supplied data (the compound chart)
  and its scrub handlers are component wiring. `ScrubFraction` and
  `InterpolateAtMonth` are the calculations they run.
