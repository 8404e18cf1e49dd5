# Carbon credit market clearing, modelled in Dafny

This project models the computational core of a carbon-credit market
simulator. Under an intensity-based scheme each producer receives a target
emission intensity. Producing below target earns tradable credits, and
producing above it must be covered by buying credits. The simulator looks for
the carbon price at which the market clears, meaning the credit balances of all
producers sum to zero. It does this on two levels:

* **Sector engine** (`CarbonSimulator`). At a trial price `P` each sector picks
  the intensity `e* = max(0, e0 - P/(2k))`. That choice minimises its
  quadratic abatement cost plus the certificate cost per unit of output. When
  elasticity is enabled, the sector also adjusts its output inside a capacity
  band. The sector's credit balance is `Q (tau - e*)`. A bisection over
  `[P_MIN, P_MAX]` drives the total balance to zero. It first checks that the
  interval brackets a root, and it reports success, the iteration count and
  the market at the last trial price.
* **Firm engine** (`FirmSimulator`). The same response is computed per
  synthetic firm, with output fixed. The engine also classifies each firm into
  a behavioural archetype and builds the result summary: buyer, seller and
  neutral counts at ±0.001, plus per-archetype totals and shares sorted by
  count.
* **Cohort generation** (`FirmGenerator`, `SeededRandom`). This splits each
  sector into its company count. Every firm draws seven jittered parameters
  from the mulberry32 generator. A `Generator` object holds the 32-bit
  generator state and updates it in place.
* **Analytics** (`ArchetypeAnalytics`) provides:
  * linear-interpolation percentiles;
  * five-number-plus-mean distribution summaries;
  * the per-archetype statistics record: medians, interquartile ranges,
    counts at the capacity caps, top-5 buyer and seller rankings, and carbon
    totals;
  * the cohort-wide profit decomposition.
* **Row classifier** (`MarketUtils`). This sorts each row into seller, buyer
  or neutral. It also provides the participant counter and the row colour.

Every quantity is a `real`. Optional record fields become `Option`. JavaScript's
`x || 0` and `a || b` fallbacks are written out (`Common.OrZero`,
`ArchetypeAnalytics.OutputOf`). Loops in the source become methods, and each
method is proved equal to a recursive specification function over the input
prefix. The properties are proved about those functions.

The main results are:

* Both bisections run at most 30 (sector) or 37 (firm) iterations, far below
  their caps of 200 and 2000.
* A failed bracket check is reported without iterating.
* When output is fixed, the total balance is non-decreasing in the price.
  The final trial price then lies within the tolerance of a sign change of
  the balance.
* The summary counts add up to the cohort. Each archetype line carries
  exactly that archetype's totals.
* Profit splits as certificate value minus abatement cost. The profit
  decomposition reproduces the simulation's total profit impact.
* Firm ids round-trip through parsing, so they are distinct.
* Generated firm parameters stay within their jitter bands.

## Model

| member | source | states |
|---|---|---|
| Common.OrZero | src/utils/archetypeAnalytics.ts:125-126 | a missing figure reads as 0, a present one as itself |
| Sorting.SortBy | src/utils/archetypeAnalytics.ts:70 | the result is a permutation of the input (same multiset, same length) in non-decreasing key order |
| Sorting.TotalSortBy | src/utils/firmSimulator.ts:187 | sorting does not change the total of any per-element quantity |
| CarbonSimulator.EStar | src/utils/carbonSimulator.ts:35-37 | optimal intensity is never negative, never above a non-negative baseline at a non-negative price, and is the baseline (floored at 0) at price 0 |
| CarbonSimulator.EStarMinimisesUnitCost | src/utils/carbonSimulator.ts:35-37 | for k > 0, e* minimises abatement plus certificate cost per unit of output over all non-negative intensities |
| CarbonSimulator.EStarAntitone | src/utils/carbonSimulator.ts:35-37 | a higher price never raises the optimal intensity |
| CarbonSimulator.Clamp | src/utils/carbonSimulator.ts:43-45 | the result lies in [lo, hi] when lo <= hi; it is x inside, the nearer end outside, and hi when the band is inverted |
| CarbonSimulator.Mnp | src/utils/carbonSimulator.ts:39-41 | the profit signal is the unit margin p - v at price 0, and no less than it when e* is at or below both target and baseline at P >= 0 |
| CarbonSimulator.ClampMonotone | src/utils/carbonSimulator.ts:43-45 | clamping to a fixed band keeps the order of its arguments |
| CarbonSimulator.ElasticOutput | src/utils/carbonSimulator.ts:78-81 | the clamped output lies in the band [(1 - b) Q0, (1 + b) Q0] and is Q0 itself when alpha is 0 |
| CarbonSimulator.ElasticOutputMonotone | src/utils/carbonSimulator.ts:78-81 | with alpha >= 0 a stronger profit signal never lowers the output |
| CarbonSimulator.MarginShift | src/utils/carbonSimulator.ts:39-41 | raising the product price raises the signal by exactly the same amount |
| CarbonSimulator.BandContainsBaseline | src/utils/carbonSimulator.ts:77-78 | a non-negative band around a non-negative baseline contains the baseline |
| CarbonSimulator.EffectiveProduction | src/utils/carbonSimulator.ts:75-82 | output is the baseline without elasticity, stays inside the capacity band with it, and equals the baseline when alpha is 0 |
| CarbonSimulator.OutputRisesWithProductPrice | src/utils/carbonSimulator.ts:75-82 | with alpha >= 0 a higher product price never lowers a sector's output at the same certificate price |
| CarbonSimulator.Respond | src/utils/carbonSimulator.ts:65-89 | a sector's optimal intensity is non-negative, its output is the baseline without elasticity, and it never both pays and earns for certificates |
| CarbonSimulator.RespondProperties | src/utils/carbonSimulator.ts:73-89 | a sector's response: e* as above, balance Q(tau - e*), non-negative abatement cost and reduction, at most one of carbon cost and revenue non-zero, profit = -abatement + P·balance, and nothing happens at price 0 |
| CarbonSimulator.RespondProfit | src/utils/carbonSimulator.ts:84-89 | profit change equals the credit value of the balance minus the abatement cost |
| CarbonSimulator.ResponseFacts | src/utils/carbonSimulator.ts:84-88 | signs of the abatement cost, reduction and certificate terms, and that revenue minus cost is P times the balance |
| CarbonSimulator.Evaluate | src/utils/carbonSimulator.ts:65-105 | the market at a price has one result per sector |
| CarbonSimulator.EvaluateStep | src/utils/carbonSimulator.ts:91-104 | one loop iteration adds the sector's balance, reduction and profit to the totals and appends its result |
| CarbonSimulator.SimulateAtPrice | src/utils/carbonSimulator.ts:47-113 | the loop computes exactly the market of the specification function |
| CarbonSimulator.EvaluateReportsEachSector | src/utils/carbonSimulator.ts:91-100 | the i-th result is sector i's response under sector i's name, in input order |
| CarbonSimulator.ProfitDecomposes | src/utils/carbonSimulator.ts:84-104 | total profit impact equals P times the market balance minus total abatement cost |
| CarbonSimulator.NoProfitChangeAtZeroPrice | src/utils/carbonSimulator.ts:84-104 | at price 0 there is no abatement cost and no profit impact |
| CarbonSimulator.RespondCccFixedOutput | src/utils/carbonSimulator.ts:75-84 | with elasticity off, the balance is baseline output times (tau - e*) |
| CarbonSimulator.FixedOutputBalanceMonotone | src/utils/carbonSimulator.ts:84 | at fixed non-negative output, a higher price never lowers a balance |
| CarbonSimulator.RespondCccMonotone | src/utils/carbonSimulator.ts:73-84 | a sector's balance is non-decreasing in the price when output is fixed |
| CarbonSimulator.BalanceNonDecreasing | src/utils/carbonSimulator.ts:103 | the market balance is non-decreasing in the price when output is fixed |
| CarbonSimulator.RespondZeroAlpha | src/utils/carbonSimulator.ts:76-82 | with alpha = 0, enabling elasticity does not change a sector's response |
| CarbonSimulator.ZeroAlphaMatchesNoElasticity | src/utils/carbonSimulator.ts:65-105 | with alpha = 0 the whole market is the same with elasticity on or off |
| CarbonSimulator.ProductIsPositive | src/utils/carbonSimulator.ts:133 | the bracket test `low * high > 0` holds exactly when both balances have the same strict sign |
| CarbonSimulator.BracketOrdered | src/utils/carbonSimulator.ts:130-133 | with fixed output, a passed bracket check means balance(P_MIN) <= 0 <= balance(P_MAX) |
| CarbonSimulator.SectorLoopBound | src/utils/carbonSimulator.ts:120-121 | while the interval is wider than the tolerance, fewer than 30 halvings have happened |
| CarbonSimulator.SearchStarts | src/utils/carbonSimulator.ts:123-133 | a passed bracket check starts the search invariant on the full interval |
| CarbonSimulator.SearchStep | src/utils/carbonSimulator.ts:150-166 | one halving keeps the interval inside the bounds, halves its width, keeps the bracket and stays under 30 iterations |
| CarbonSimulator.SearchEnds | src/utils/carbonSimulator.ts:150-170 | when the loop stops on width, the last trial price is within the tolerance of a sign change of the balance |
| CarbonSimulator.FindEquilibriumPrice | src/utils/carbonSimulator.ts:115-186 | options default to elasticity off, alpha 0.0005 and band 0.20; result is the market at the returned price, inside the bounds, after at most 30 iterations; no iterations exactly when the bracket fails (then not found, midpoint price); otherwise found iff the final balance is within the tolerance; with fixed output and not found, the price is within the tolerance of a root |
| MarketUtils.Classify | src/utils/marketUtils.ts:7-11 | tol defaults to 1e-6; seller iff above tol; buyer iff not seller and below -tol; neutral otherwise |
| MarketUtils.ClassifyBands | src/utils/marketUtils.ts:7-11 | for tol >= 0 the two tests exclude each other and neutral is exactly abs(S) <= tol |
| MarketUtils.DefaultToleranceBand | src/utils/marketUtils.ts:3-11 | called without a tolerance, the band is one millionth: seller above 1e-6, buyer below -1e-6, neutral iff abs(S) <= 1e-6 |
| MarketUtils.NegativeToleranceHasNoNeutral | src/utils/marketUtils.ts:7-11 | a negative tolerance leaves no neutral rows |
| MarketUtils.CountClass | src/utils/marketUtils.ts:19-35 | a class count never exceeds the number of rows |
| MarketUtils.CountClassPartition | src/utils/marketUtils.ts:27-32 | the three counts add up to the number of rows |
| MarketUtils.CountClassSnoc | src/utils/marketUtils.ts:27-32 | one more row adds one to exactly the count of its class |
| MarketUtils.CountClassPositive | src/utils/marketUtils.ts:27-32 | a count is positive iff some row is in that class |
| MarketUtils.Counts | src/utils/marketUtils.ts:19-35 | tol defaults to 1e-6; the loop's three counters are the class counts and add up to the rows |
| MarketUtils.ColorFor | src/utils/marketUtils.ts:37-41 | green, red or grey exactly when the row is a seller, buyer or neutral |
| SeededRandom.ToUnit | src/utils/seededRandom.ts:6 | every output lies in [0, 1) |
| SeededRandom.NthDraw | src/utils/seededRandom.ts:1-8 | the n-th draw from a seed lies in [0, 1) |
| SeededRandom.AdvanceShift | src/utils/seededRandom.ts:3 | advancing from the incremented state equals advancing one more step from the original |
| SeededRandom.NthDrawScramblesAdvance | src/utils/seededRandom.ts:3-6 | the n-th draw is the scramble of the state after n+1 increments |
| SeededRandom.StreamPrefix | src/utils/seededRandom.ts:10-14 | a shorter stream from the same seed is a prefix of a longer one |
| SeededRandom.StreamDraws | src/utils/seededRandom.ts:10-14 | the seven draws of firm j sit at positions 7j to 7j+6 of the stream |
| SeededRandom.StretchBounds | src/utils/seededRandom.ts:15 | a unit draw stretched over a positive width lands in [lo, lo + width) |
| SeededRandom.RangeOfBounds | src/utils/seededRandom.ts:15 | randomRange lands in [min, max) for min < max and returns min when they are equal |
| SeededRandom.SpreadRange | src/utils/seededRandom.ts:17 | the symmetric spread of a unit draw lies in [1 - c, 1 + c) |
| SeededRandom.JitterFactorRange | src/utils/seededRandom.ts:17 | the jitter factor lies within jitterPercent % of 1, and is exactly 1 when jitterPercent is 0 |
| SeededRandom.JitterOfBounds | src/utils/seededRandom.ts:16-19 | a jittered value stays within jitterPercent % of a non-negative value; it is unchanged at 0 %, non-negative up to 100 % and positive below 100 % |
| SeededRandom.JitterOfZero | src/utils/seededRandom.ts:16-19 | a 0 % jitter returns the value unchanged |
| SeededRandom.JitterOfBand | src/utils/seededRandom.ts:16-19 | a jittered non-negative value lies within jitterPercent % of it |
| SeededRandom.JitterOfNonNegative | src/utils/seededRandom.ts:16-19 | up to 100 % jitter keeps a non-negative value non-negative |
| SeededRandom.JitterOfPositive | src/utils/seededRandom.ts:16-19 | below 100 % jitter keeps a positive value positive |
| SeededRandom.Generator.constructor | src/utils/seededRandom.ts:10-11 | a fresh generator starts at the seed's 32-bit state with no draws taken |
| SeededRandom.Generator.Random | src/utils/seededRandom.ts:14 | each call advances the state by the increment and returns the next draw of the seed's stream, in [0, 1) |
| SeededRandom.Generator.RandomRange | src/utils/seededRandom.ts:15 | each call consumes one draw and returns it stretched over [min, max) |
| SeededRandom.Generator.Jitter | src/utils/seededRandom.ts:16-19 | each call consumes one draw and returns the jittered value; 0 % returns the value itself |
| SeededRandom.SameSeedSameStream | src/utils/seededRandom.ts:1-14 | two generators built from the same seed produce the same stream |
| FirmGenerator.CompanyCount | src/utils/firmGenerator.ts:50 | a missing or zero count falls back to 1: at least 1, the table's count when positive, 1 for an unknown sector |
| FirmGenerator.ShippedCohortSize | src/utils/firmGenerator.ts:27-37 | the shipped tables yield a cohort of 816 firms |
| FirmGenerator.DigitsOf | src/utils/firmGenerator.ts:66 | a number's decimal text is non-empty and made of digits |
| FirmGenerator.ValueOfDigits | src/utils/firmGenerator.ts:66 | reading the decimal text back gives the number |
| FirmGenerator.PadStart | src/utils/firmGenerator.ts:66 | padding gives the wider of the text's length and the width |
| FirmGenerator.FirmId | src/utils/firmGenerator.ts:66 | an id is 'F' followed by at least four characters |
| FirmGenerator.FirmIdRoundTrip | src/utils/firmGenerator.ts:62-66 | parsing an id gives back the firm counter |
| FirmGenerator.FirmIdInjective | src/utils/firmGenerator.ts:62-66 | distinct counters give distinct ids |
| FirmGenerator.FirmIdWidth | src/utils/firmGenerator.ts:66 | counters below 10000 give ids of exactly five characters |
| FirmGenerator.MakeFirmPrefix | src/utils/firmGenerator.ts:64-79 | a firm depends only on the draws up to its own seventh |
| FirmGenerator.Layout | src/utils/firmGenerator.ts:49-61 | the sector index of every generated firm, one per company, all in range |
| FirmGenerator.Cohort | src/utils/firmGenerator.ts:39-84 | the cohort has one firm per company of every sector |
| FirmGenerator.DrawFirm | src/utils/firmGenerator.ts:62-79 | one firm takes exactly seven draws and is the firm the specification builds from them |
| FirmGenerator.AppendSectorFirms | src/utils/firmGenerator.ts:49-81 | one sector's loop appends its count of firms, in order, consuming seven draws each |
| FirmGenerator.GenerateSyntheticFirms | src/utils/firmGenerator.ts:39-84 | alpha defaults to 0.0005 and the band to 0.20; the generated list is the cohort determined by the seed's stream, one firm per company |
| FirmGenerator.MakeFirmFacts | src/utils/firmGenerator.ts:62-76 | the j-th firm has id F(j+1), its sector's index and name, and the given alpha |
| FirmGenerator.MakeFirmCapacity | src/utils/firmGenerator.ts:77-78 | the caps are (1 ∓ band) times the drawn output and enclose it |
| FirmGenerator.MakeFirmProductionBand | src/utils/firmGenerator.ts:53-64 | drawn output is within jitterPercent % of the sector's output per company |
| FirmGenerator.MakeFirmTargetBand | src/utils/firmGenerator.ts:71 | the drawn target is within half the jitter of the sector target |
| FirmGenerator.CohortFirmFacts | src/utils/firmGenerator.ts:49-81 | firm j of the cohort carries id F(j+1) and the sector that the layout assigns it |
| FirmGenerator.LayoutGrouped | src/utils/firmGenerator.ts:49-61 | firms come grouped by sector, in table order |
| FirmGenerator.LayoutCount | src/utils/firmGenerator.ts:49-61 | each sector contributes exactly its company count |
| FirmGenerator.CohortIdsDistinct | src/utils/firmGenerator.ts:62-66 | no two firms of a cohort share an id |
| FirmGenerator.QuotientBelow | src/utils/firmGenerator.ts:88-89 | `num / den < bound` with a non-zero divisor; with a zero divisor, the IEEE outcome (true only for a negative numerator) |
| FirmGenerator.ShareBelow | src/utils/firmGenerator.ts:89 | a missing sector total (NaN share) never passes the test, otherwise the quotient test |
| FirmGenerator.ClassifyArchetype | src/utils/firmGenerator.ts:86-112 | Aggressive Abater exactly when k <= 120 and the intensity gap is below 0.2; Chronic Emitter only with k >= 180 and a gap above 0.8; never Efficient Niche Producer without a sector total; Typical Producer only when the margin test fails |
| FirmGenerator.ClassifyIsFirstMatch | src/utils/firmGenerator.ts:86-112 | the archetype is the outcome of the first test that holds, or Typical Producer |
| FirmGenerator.ArchetypeIffRule | src/utils/firmGenerator.ts:91-111 | a firm has archetype i iff test i holds and no earlier test does |
| FirmGenerator.CheapSmallGapIsAggressive | src/utils/firmGenerator.ts:91-93 | k <= 120 with a gap below 0.2 is always an Aggressive Abater |
| FirmSimulator.CalculateOptimalIntensity | src/utils/firmSimulator.ts:27-29 | the firm engine's optimal intensity is the sector engine's e*, non-negative and at most the baseline |
| FirmSimulator.RespondFirmProperties | src/utils/firmSimulator.ts:46-55 | a firm's response: balance Q(tau - e*), non-negative cost and reduction, exclusive cost and revenue, profit = -abatement + P·balance, nothing at price 0 |
| FirmSimulator.RespondFirm | src/utils/firmSimulator.ts:46-55 | a firm's optimal intensity is non-negative and at most its baseline at P >= 0, k > 0; it never both pays and earns for certificates |
| FirmSimulator.RespondFirmIsSectorResponse | src/utils/firmSimulator.ts:46-55 | a firm responds as a one-firm sector with elasticity off |
| FirmSimulator.CertificateFlows | src/utils/firmSimulator.ts:53-54 | `P·max(0, -S)` and `P·max(0, S)` are the sector engine's carbon cost and revenue |
| FirmSimulator.SectorTotals | src/utils/firmSimulator.ts:41-44 | every sector name has an entry, and every entry names a sector |
| FirmSimulator.TotalFor | src/utils/firmSimulator.ts:57 | a lookup is present exactly for a known sector and gives its total |
| FirmSimulator.SimulateFirms | src/utils/firmSimulator.ts:46-79 | every firm comes back, simulated, in input order |
| FirmSimulator.SimulateFirmsStep | src/utils/firmSimulator.ts:59-71 | one firm adds its balance, reduction and profit to the totals and appends its updated record |
| FirmSimulator.SimulateFirmsAtPrice | src/utils/firmSimulator.ts:31-80 | the loop computes exactly the specification's market |
| FirmSimulator.SimulateFirmsEach | src/utils/firmSimulator.ts:63-71 | record i keeps firm i's data and carries its response and its archetype |
| FirmSimulator.SimulateFirmsTotals | src/utils/firmSimulator.ts:59-61 | the three totals are the sums of the per-firm figures |
| FirmSimulator.FirmBalanceNonDecreasing | src/utils/firmSimulator.ts:48 | the firms' market balance is non-decreasing in the price |
| FirmSimulator.TotalsOf | src/utils/firmSimulator.ts:157-173 | an archetype's count never exceeds the cohort |
| FirmSimulator.TallyTotals | src/utils/firmSimulator.ts:150-173 | the keys are distinct and appear in order; each entry holds exactly its archetype's totals, at least one firm; absent archetypes have none |
| FirmSimulator.TallyCountsEveryFirm | src/utils/firmSimulator.ts:157-173 | the per-archetype counts add up to the number of firms |
| FirmSimulator.AbsFlow | src/utils/firmSimulator.ts:175 | the total absolute credit flow is non-negative |
| FirmSimulator.ArchetypeBalanceWithinFlow | src/utils/firmSimulator.ts:175-181 | an archetype's net balance is no larger in size than the total absolute flow |
| FirmSimulator.Share | src/utils/firmSimulator.ts:181-182 | a part of a positive whole is 0..100 %; a non-positive whole gives 0 |
| FirmSimulator.Lines | src/utils/firmSimulator.ts:178-185 | one summary line per archetype key |
| FirmSimulator.LinesAt | src/utils/firmSimulator.ts:178-185 | line j summarises the j-th key's totals |
| FirmSimulator.SummaryProperties | src/utils/firmSimulator.ts:150-187 | the summary is sorted by count, descending, and its counts add up to the cohort. Each line carries its archetype's count (at least 1) and balance, with a flow share of 0..100 % that is 0 without flow. Every firm's archetype has a line |
| FirmSimulator.TotalsCountsCarrier | src/utils/firmSimulator.ts:157-169 | an archetype some firm carries has a positive count |
| FirmSimulator.ResultCountsAddUp | src/utils/firmSimulator.ts:136-148 | buyers, sellers and neutral firms add up to the cohort |
| FirmSimulator.CountParticipants | src/utils/firmSimulator.ts:136-148 | the counters are the row-classifier class counts at tolerance 0.001 |
| FirmSimulator.ColumnStep | src/utils/firmSimulator.ts:140-148 | extending the cohort by one firm extends a figure column by that firm's figure |
| FirmSimulator.TallyArchetypes | src/utils/firmSimulator.ts:150-173 | the loop builds exactly the specification's keyed totals |
| FirmSimulator.CreateSimulationResult | src/utils/firmSimulator.ts:128-202 | the built result is the specification's result for that market |
| FirmSimulator.FirmLoopBound | src/utils/firmSimulator.ts:83-84 | while the interval is wider than 1e-6, fewer than 37 halvings have happened |
| FirmSimulator.FirmSearchStarts | src/utils/firmSimulator.ts:86-100 | a passed bracket check starts the search invariant on [0, 100000] |
| FirmSimulator.FirmSearchStep | src/utils/firmSimulator.ts:102-118 | one halving keeps bounds, width and bracket and stays under 37 iterations |
| FirmSimulator.FirmSearchEnds | src/utils/firmSimulator.ts:102-122 | when the loop stops on width, the price is within the tolerance of a sign change |
| FirmSimulator.Bisect | src/utils/firmSimulator.ts:102-122 | the loop ends inside the bounds after 1..37 iterations; found iff the balance at the price is within the tolerance; otherwise the price is within the tolerance of a root |
| FirmSimulator.Resimulate | src/utils/firmSimulator.ts:124-125 | the final result is built from a fresh simulation at the accepted price |
| FirmSimulator.FindFirmEquilibrium | src/utils/firmSimulator.ts:82-126 | result is the specification's result at the returned price, inside [0, 100000], after at most 37 iterations; no iterations exactly when the bracket fails (then not found, midpoint); otherwise found iff the final balance is within the tolerance; with non-negative outputs and k > 0 and not found, the price is within the tolerance of a root |
| ArchetypeAnalytics.InterpolateBetween | src/utils/archetypeAnalytics.ts:62 | interpolating with a weight in [0, 1] stays between the two ends |
| ArchetypeAnalytics.InterpolateMonotone | src/utils/archetypeAnalytics.ts:62 | a larger weight never gives a smaller value when a <= b |
| ArchetypeAnalytics.Rank | src/utils/archetypeAnalytics.ts:58 | the fractional index lies in [0, n - 1] |
| ArchetypeAnalytics.RankMonotone | src/utils/archetypeAnalytics.ts:58 | a higher percentile gives a higher index |
| ArchetypeAnalytics.Ceil | src/utils/archetypeAnalytics.ts:60 | the ceiling is the floor, or the floor plus one when x is not integral, and is at least x |
| ArchetypeAnalytics.Percentile | src/utils/archetypeAnalytics.ts:56-63 | an empty list gives 0 |
| ArchetypeAnalytics.LerpBounds | src/utils/archetypeAnalytics.ts:58-62 | the interpolated value lies between the entries at the floor and the ceiling of the index |
| ArchetypeAnalytics.LerpMonotone | src/utils/archetypeAnalytics.ts:58-62 | on a sorted list a larger index gives a larger value |
| ArchetypeAnalytics.PercentileBounds | src/utils/archetypeAnalytics.ts:56-63 | every percentile of a sorted list lies between its first and last entries |
| ArchetypeAnalytics.PercentileEnds | src/utils/archetypeAnalytics.ts:56-63 | percentile 0 is the first entry and percentile 100 the last |
| ArchetypeAnalytics.PercentileMonotone | src/utils/archetypeAnalytics.ts:56-63 | on a sorted list, percentiles are non-decreasing in p |
| ArchetypeAnalytics.ComputeDistributionStats | src/utils/archetypeAnalytics.ts:65-68 | no values give all zeros |
| ArchetypeAnalytics.MeanBetween | src/utils/archetypeAnalytics.ts:71 | the mean of values within [lo, hi] lies in [lo, hi] |
| ArchetypeAnalytics.DistributionEnds | src/utils/archetypeAnalytics.ts:70-80 | min and max are values of the input and bound every value |
| ArchetypeAnalytics.DistributionChain | src/utils/archetypeAnalytics.ts:73-80 | min <= p10 <= p25 <= median <= p75 <= p90 <= max |
| ArchetypeAnalytics.DistributionMean | src/utils/archetypeAnalytics.ts:71 | the mean lies between min and max |
| ArchetypeAnalytics.DistributionStatsOrdered | src/utils/archetypeAnalytics.ts:65-83 | all of the above for a non-empty input |
| ArchetypeAnalytics.Members | src/utils/archetypeAnalytics.ts:90 | the filter keeps only firms of the archetype |
| ArchetypeAnalytics.MembersCount | src/utils/archetypeAnalytics.ts:90 | the filter keeps as many firms as the firm engine counts for the archetype |
| ArchetypeAnalytics.MembersExactly | src/utils/archetypeAnalytics.ts:90 | a firm is kept iff it is in the cohort and carries the archetype |
| ArchetypeAnalytics.Values | src/utils/archetypeAnalytics.ts:121-126 | the mapped list has one value per firm, the firm's figure |
| ArchetypeAnalytics.CarbonCostTerm | src/utils/archetypeAnalytics.ts:170-173 | each firm's carbon-cost term is non-negative |
| ArchetypeAnalytics.CarbonRevenueTerm | src/utils/archetypeAnalytics.ts:174-177 | each firm's carbon-revenue term is non-negative |
| ArchetypeAnalytics.RankedExactly | src/utils/archetypeAnalytics.ts:147-154 | a ranking entry is present iff some firm passes the filter and maps to it |
| ArchetypeAnalytics.RankedComesFrom | src/utils/archetypeAnalytics.ts:147-154 | every ranking entry of an archetype comes from one of its firms passing the filter |
| ArchetypeAnalytics.Take5 | src/utils/archetypeAnalytics.ts:156 | the first five entries, or all when fewer |
| ArchetypeAnalytics.TopOfSorted | src/utils/archetypeAnalytics.ts:155-156 | the top five of a sorted list are sorted, and an entry left out ranks no better than the last one kept |
| ArchetypeAnalytics.ComputeArchetypeStats | src/utils/archetypeAnalytics.ts:85-205 | the method computes exactly the specification's record, cap counters included |
| ArchetypeAnalytics.StatsCounts | src/utils/archetypeAnalytics.ts:90-119 | the firm count is the engine's count; no members give the all-zero record; cap counts never exceed the firm count; cap percentages lie in 0..100 |
| ArchetypeAnalytics.StatsQuartiles | src/utils/archetypeAnalytics.ts:128-133 | each reported median lies between its reported quartiles |
| ArchetypeAnalytics.TopSellersFacts | src/utils/archetypeAnalytics.ts:147-156 | with a seller present there are 1..5 top sellers, largest surplus first, each a seller of the archetype; any seller not listed has no larger surplus than the last listed |
| ArchetypeAnalytics.TopBuyersFacts | src/utils/archetypeAnalytics.ts:158-167 | with a buyer present there are 1..5 top buyers, largest deficit first, each a buyer of the archetype; any buyer not listed has no larger deficit than the last listed |
| ArchetypeAnalytics.TopSellersShape | src/utils/archetypeAnalytics.ts:147-156 | for any archetype: at most 5 top sellers, largest surplus first, each a member with balance above 0.001, and none when no member is a seller |
| ArchetypeAnalytics.TopBuyersShape | src/utils/archetypeAnalytics.ts:158-167 | for any archetype: at most 5 top buyers, largest deficit first, each a member with balance below -0.001, and none when no member is a buyer |
| ArchetypeAnalytics.CarbonTermsNet | src/utils/archetypeAnalytics.ts:170-177 | for simulated firms, revenue terms minus cost terms sum to the net balance |
| ArchetypeAnalytics.MembersBalance | src/utils/archetypeAnalytics.ts:125 | the members' balances sum to the engine's archetype total |
| ArchetypeAnalytics.StatsCarbon | src/utils/archetypeAnalytics.ts:169-177 | carbon cost and revenue are non-negative; for a simulated cohort their difference is the archetype's total credit balance |
| ArchetypeAnalytics.ComputeProfitDecomposition | src/utils/archetypeAnalytics.ts:207-230 | the loop computes exactly the specification's decomposition |
| ArchetypeAnalytics.AccumulateNonNegative | src/utils/archetypeAnalytics.ts:212-221 | at a non-negative price, cost and revenue never go negative |
| ArchetypeAnalytics.AccumulateStep | src/utils/archetypeAnalytics.ts:215-220 | each firm moves revenue minus cost by P times its balance |
| ArchetypeAnalytics.AccumulateNet | src/utils/archetypeAnalytics.ts:212-221 | revenue minus cost is P times the cohort's net balance |
| ArchetypeAnalytics.DecompositionIdentities | src/utils/archetypeAnalytics.ts:207-230 | net transfer = revenue - cost = P × net balance; impact = net transfer - abatement; cost and revenue non-negative at P >= 0 |
| ArchetypeAnalytics.ZeroBalanceAddsNoTransfer | src/utils/archetypeAnalytics.ts:216-220 | a firm with zero or missing balance adds neither cost nor revenue |
| ArchetypeAnalytics.ImpactStep | src/utils/archetypeAnalytics.ts:212-228 | each firm changes the impact by minus its abatement, minus its cost, plus its revenue |
| ArchetypeAnalytics.FirmImpact | src/utils/firmSimulator.ts:51-55 | a firm's profit change has the same three-term shape |
| ArchetypeAnalytics.DecompositionMatchesSimulation | src/utils/archetypeAnalytics.ts:207-229 | decomposing a simulated cohort at its price gives back the simulation's total profit impact |

## Left out

- Floating point. Every quantity is an exact real, and IEEE rounding is not modelled.
- NaN and Infinity. A division by zero in the source yields these. The divisions by `k`, by a firm's output in the output ratio and by `totalQ` become preconditions (`k != 0`, `Divisible`).
- The classifier's two divisions keep their IEEE outcome instead (`FirmGenerator.QuotientBelow`, `FirmGenerator.ShareBelow`). So does a missing sector total.
- The sign of a zero divisor is not modelled: `-0.0` is treated as `+0.0`.
- The code does not reject `k <= 0`, inverted caps or an empty cohort; the model follows the code and demands only what a division needs.
- Global tables. The engines read `SECTORAL_DATA`, `COST_DATA` and `SECTOR_COMPANY_COUNTS` directly. The model passes them in as parameters. The shipped rows are defined in `Constants` and `FirmGenerator.SECTOR_COMPANY_COUNTS`.
- The seed. The generator's seed is an integer reduced to its low 32 bits, which is what `Math.imul` and `^` use. A fractional seed, and the double-precision drift of the running seed past 2^53, are not modelled.
- Archetypes are a datatype of six values, not free strings. Asking for statistics of a label no firm can carry is the same as asking for an archetype with no members.
- Sorting.SortBy: stability is not stated. The source's sort is stable, which fixes the order of summary lines with equal counts and of rankings with equal balances. The model proves only sortedness and permutation.
- CarbonSimulator.FindEquilibriumPrice: the root-location guarantee is stated only for fixed output. With elasticity the balance need not be monotone, and nothing is claimed.
- FirmSimulator.FindFirmEquilibrium: the root-location guarantee is stated only when outputs are non-negative and `k > 0`.
- ArchetypeAnalytics.Percentile: requires `0 <= p <= 100`. Outside that range the source reads past the array. The source only calls it with 10, 25, 50, 75 and 90.
- ArchetypeAnalytics.StatsCounts: no property of `shareOfTotalQ` is stated beyond its definition in the record.
- The copy that `computeDistributionStats` sorts is immaterial in a pure model. The input is not changed either way.
- `generateInsights` and `exportFirmsToCSV` in `src/utils/archetypeAnalytics.ts` are text and file formatting. They are not part of this model.
- The React components under `src/components` and `src/App.tsx` are presentation. They are not part of this model.
- The output-ratio branch for a firm with zero baseline output is never reached under `Divisible`.
