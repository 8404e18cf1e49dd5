/** Summary statistics over a simulated cohort: linear-interpolation
    percentiles, the distribution summary of a list of values, the detail
    record of one archetype (quartiles of its figures, capacity-cap counts,
    top sellers and buyers, certificate totals) and the profit decomposition of
    the whole cohort. */
module ArchetypeAnalytics {
  import opened Common
  import opened Sorting
  import opened FirmGenerator
  import opened FirmSimulator
  import CarbonSimulator

  // ---------------------------------------------------------------------------
  // Percentiles
  // ---------------------------------------------------------------------------

  /** The identity key: `(a, b) => a - b` sorts numbers ascending. */
  function Identity(x: real): real { x }

  /** `a (1 - w) + b w`: the point a fraction `w` of the way from `a` to `b`. */
  function Interpolate(a: real, b: real, w: real): real
  {
    a * (1.0 - w) + b * w
  }

  /** Between its ends for a weight in [0, 1]. */
  lemma InterpolateBetween(a: real, b: real, w: real)
    requires a <= b && 0.0 <= w <= 1.0
    ensures a <= Interpolate(a, b, w) <= b
  {
    assert Interpolate(a, b, w) == a + (b - a) * w;
    MulNonNegative(b - a, w);
    MulMonotone(w, 1.0, b - a);
  }

  /** Moving further along never moves back, for `a <= b`. */
  lemma InterpolateMonotone(a: real, b: real, w1: real, w2: real)
    requires a <= b && w1 <= w2
    ensures Interpolate(a, b, w1) <= Interpolate(a, b, w2)
  {
    assert Interpolate(a, b, w1) == a + (b - a) * w1;
    assert Interpolate(a, b, w2) == a + (b - a) * w2;
    MulMonotone(w1, w2, b - a);
  }

  /** The fractional position `p / 100 * (n - 1)` of the `p`-th percentile
      in a list of `n`. */
  function Rank(p: real, n: nat): (index: real)
    requires 0.0 <= p <= 100.0 && n >= 1
    ensures 0.0 <= index <= (n - 1) as real
  {
    MulNonNegative(p / 100.0, (n - 1) as real);
    MulMonotone(p / 100.0, 1.0, (n - 1) as real);
    p / 100.0 * ((n - 1) as real)
  }

  /** A higher percentile sits no earlier in the list. */
  lemma RankMonotone(p: real, q: real, n: nat)
    requires 0.0 <= p <= q <= 100.0 && n >= 1
    ensures Rank(p, n) <= Rank(q, n)
  {
    var m := (n - 1) as real;
    MulMonotone(p / 100.0, q / 100.0, m);
    assert Rank(p, n) == p / 100.0 * m;
    assert Rank(q, n) == q / 100.0 * m;
  }

  /** `Math.ceil` of a non-negative real, as an index. */
  function Ceil(x: real): (c: int)
    ensures x.Floor <= c <= x.Floor + 1
    ensures c as real >= x
    ensures c == x.Floor <==> x.Floor as real == x
  {
    if x.Floor as real == x then x.Floor else x.Floor + 1
  }

  /** The value at fractional position `index` of a list: the entries at the
      floor and the ceiling of the position, interpolated by its fraction. */
  function Lerp(sorted: seq<real>, index: real): real
    requires 0.0 <= index <= (|sorted| - 1) as real
  {
    var lower := index.Floor;
    Interpolate(sorted[lower], sorted[Ceil(index)], index - lower as real)
  }

  /** `percentile`: 0 for an empty list, otherwise the value at the rank. */
  function Percentile(sorted: seq<real>, p: real): (r: real)
    requires 0.0 <= p <= 100.0
    ensures |sorted| == 0 ==> r == 0.0
  {
    if |sorted| == 0 then 0.0 else Lerp(sorted, Rank(p, |sorted|))
  }

  /** In a sorted list the value at a position lies between the entries at
      its floor and its ceiling. */
  lemma LerpBounds(sorted: seq<real>, index: real)
    requires 0.0 <= index <= (|sorted| - 1) as real && SortedBy(sorted, Identity)
    ensures sorted[index.Floor] <= Lerp(sorted, index) <= sorted[Ceil(index)]
  {
    assert Identity(sorted[index.Floor]) <= Identity(sorted[Ceil(index)]);
    InterpolateBetween(sorted[index.Floor], sorted[Ceil(index)], index - index.Floor as real);
  }

  /** In a sorted list a later position never has a smaller value. */
  lemma LerpMonotone(sorted: seq<real>, i: real, j: real)
    requires 0.0 <= i <= j <= (|sorted| - 1) as real && SortedBy(sorted, Identity)
    ensures Lerp(sorted, i) <= Lerp(sorted, j)
  {
    var l1, l2 := i.Floor, j.Floor;
    LerpBounds(sorted, i);
    LerpBounds(sorted, j);
    if l1 < l2 {
      assert Identity(sorted[Ceil(i)]) <= Identity(sorted[l2]);
    } else if Ceil(i) != l1 {
      assert Ceil(j) == Ceil(i);
      InterpolateMonotone(sorted[l1], sorted[Ceil(i)], i - l1 as real, j - l1 as real);
    }
  }

  /** In a sorted, non-empty list every percentile lies between the first and
      the last entry. */
  lemma PercentileBounds(sorted: seq<real>, p: real)
    requires 0.0 <= p <= 100.0 && |sorted| > 0 && SortedBy(sorted, Identity)
    ensures sorted[0] <= Percentile(sorted, p) <= sorted[|sorted| - 1]
  {
    var index := Rank(p, |sorted|);
    LerpBounds(sorted, index);
    assert Identity(sorted[0]) <= Identity(sorted[index.Floor]);
    assert Identity(sorted[Ceil(index)]) <= Identity(sorted[|sorted| - 1]);
  }

  /** The 0th percentile is the first entry and the 100th the last. */
  lemma PercentileEnds(sorted: seq<real>)
    requires |sorted| > 0
    ensures Percentile(sorted, 0.0) == sorted[0]
    ensures Percentile(sorted, 100.0) == sorted[|sorted| - 1]
  {
    assert Rank(100.0, |sorted|) == (|sorted| - 1) as real;
  }

  /** A higher percentile of a sorted list is never smaller. */
  lemma PercentileMonotone(sorted: seq<real>, p: real, q: real)
    requires 0.0 <= p <= q <= 100.0 && SortedBy(sorted, Identity)
    ensures Percentile(sorted, p) <= Percentile(sorted, q)
  {
    if |sorted| > 0 {
      RankMonotone(p, q, |sorted|);
      LerpMonotone(sorted, Rank(p, |sorted|), Rank(q, |sorted|));
    }
  }

  // ---------------------------------------------------------------------------
  // Distribution summary
  // ---------------------------------------------------------------------------

  datatype DistributionStats = DistributionStats(
    min: real, p10: real, p25: real, median: real, p75: real, p90: real, max: real, mean: real)

  const ZeroStats: DistributionStats := DistributionStats(0.0, 0.0, 0.0, 0.0, 0.0, 0.0, 0.0, 0.0)

  /** `computeDistributionStats`: all zeros for no values; otherwise the ends
      and five percentiles of a sorted copy, and the mean of the values. */
  function ComputeDistributionStats(values: seq<real>): (d: DistributionStats)
    ensures |values| == 0 ==> d == ZeroStats
  {
    if |values| == 0 then ZeroStats
    else
      var sorted := SortBy(values, Identity);
      var mean := Sum(values) / (|values| as real);
      DistributionStats(sorted[0], Percentile(sorted, 10.0), Percentile(sorted, 25.0), Percentile(sorted, 50.0),
                        Percentile(sorted, 75.0), Percentile(sorted, 90.0), sorted[|sorted| - 1], mean)
  }

  /** Values between two bounds sum to between `n` times each bound. */
  lemma {:induction false} SumBetween(s: seq<real>, lo: real, hi: real)
    requires forall i :: 0 <= i < |s| ==> lo <= s[i] <= hi
    ensures (|s| as real) * lo <= Sum(s) <= (|s| as real) * hi
  {
    if s != [] {
      var n := |s| - 1;
      SumBetween(s[..n], lo, hi);
    }
  }

  /** Values between two bounds have their mean between them. */
  lemma MeanBetween(s: seq<real>, lo: real, hi: real)
    requires |s| > 0 && forall i :: 0 <= i < |s| ==> lo <= s[i] <= hi
    ensures lo <= Sum(s) / (|s| as real) <= hi
  {
    var n := |s| as real;
    SumBetween(s, lo, hi);
    assert Sum(s) / n - lo == (Sum(s) - n * lo) / n;
    assert hi - Sum(s) / n == (n * hi - Sum(s)) / n;
  }

  /** For values present, `min` and `max` are among them and bound all of them. */
  lemma DistributionEnds(values: seq<real>)
    requires |values| > 0
    ensures var d := ComputeDistributionStats(values);
      && d.min in values && d.max in values
      && (forall i :: 0 <= i < |values| ==> d.min <= values[i] <= d.max)
  {
    var sorted := SortBy(values, Identity);
    var d := ComputeDistributionStats(values);
    assert d.min == sorted[0] && d.max == sorted[|sorted| - 1];
    assert sorted[0] in multiset(values);
    assert sorted[|sorted| - 1] in multiset(values);
    forall i | 0 <= i < |values|
      ensures d.min <= values[i] <= d.max
    {
      assert values[i] in multiset(sorted);
      var j :| 0 <= j < |sorted| && sorted[j] == values[i];
      assert Identity(sorted[0]) <= Identity(sorted[j]) <= Identity(sorted[|sorted| - 1]);
    }
  }

  /** The percentiles climb from `min` to `max`. */
  lemma DistributionChain(values: seq<real>)
    requires |values| > 0
    ensures var d := ComputeDistributionStats(values);
      d.min <= d.p10 <= d.p25 <= d.median <= d.p75 <= d.p90 <= d.max
  {
    var sorted := SortBy(values, Identity);
    PercentileEnds(sorted);
    PercentileMonotone(sorted, 0.0, 10.0);
    PercentileMonotone(sorted, 10.0, 25.0);
    PercentileMonotone(sorted, 25.0, 50.0);
    PercentileMonotone(sorted, 50.0, 75.0);
    PercentileMonotone(sorted, 75.0, 90.0);
    PercentileMonotone(sorted, 90.0, 100.0);
  }

  /** The mean lies between `min` and `max`. */
  lemma DistributionMean(values: seq<real>)
    requires |values| > 0
    ensures var d := ComputeDistributionStats(values);
      d.min <= d.mean <= d.max
  {
    var d := ComputeDistributionStats(values);
    DistributionEnds(values);
    MeanBetween(values, d.min, d.max);
  }

  /** For values present, `min` and `max` are the smallest and the largest of
      them, the percentiles climb from one to the other, and the mean lies
      between them. */
  lemma DistributionStatsOrdered(values: seq<real>)
    requires |values| > 0
    ensures var d := ComputeDistributionStats(values);
      && d.min in values && d.max in values
      && (forall i :: 0 <= i < |values| ==> d.min <= values[i] <= d.max)
      && d.min <= d.p10 <= d.p25 <= d.median <= d.p75 <= d.p90 <= d.max
      && d.min <= d.mean <= d.max
  {
    DistributionEnds(values);
    DistributionChain(values);
    DistributionMean(values);
  }

  // ---------------------------------------------------------------------------
  // The firms of one archetype
  // ---------------------------------------------------------------------------

  /** The firms tagged with archetype `a`, in order. */
  function Members(firms: seq<FirmRecord>, a: Archetype): (m: seq<FirmRecord>)
    ensures |m| <= |firms|
    ensures forall i :: 0 <= i < |m| ==> m[i].archetype == Some(a)
    decreases |firms|
  {
    if firms == [] then []
    else
      var n := |firms| - 1;
      var m := Members(firms[..n], a);
      if firms[n].archetype == Some(a) then m + [firms[n]] else m
  }

  /** There are as many members as the result summary counts for `a`. */
  lemma {:induction false} MembersCount(firms: seq<FirmRecord>, a: Archetype)
    ensures |Members(firms, a)| == TotalsOf(firms, a).count
    decreases |firms|
  {
    if firms != [] {
      MembersCount(firms[..|firms| - 1], a);
    }
  }

  /** Every member is one of the firms, and every firm tagged `a` is a member. */
  lemma {:induction false} MembersExactly(firms: seq<FirmRecord>, a: Archetype, x: FirmRecord)
    ensures x in Members(firms, a) <==> x in firms && x.archetype == Some(a)
    decreases |firms|
  {
    if firms != [] {
      var n := |firms| - 1;
      MembersExactly(firms[..n], a, x);
      assert firms == firms[..n] + [firms[n]];
    }
  }

  /** A figure of each firm, in order. */
  function Values(fs: seq<FirmRecord>, g: FirmRecord -> real): (v: seq<real>)
    ensures |v| == |fs|
    ensures forall i :: 0 <= i < |fs| ==> v[i] == g(fs[i])
    decreases |fs|
  {
    if fs == [] then [] else Values(fs[..|fs| - 1], g) + [g(fs[|fs| - 1])]
  }

  /** `f.actualProduction || f.production`: the recorded actual output unless
      it is absent or zero. */
  function OutputOf(f: FirmRecord): real
  {
    if f.actualProduction.Some? && f.actualProduction.value != 0.0 then f.actualProduction.value
    else f.firm.production
  }

  function KOf(f: FirmRecord): real { f.firm.k }
  function GapOf(f: FirmRecord): real { f.firm.baseIntensity - f.firm.target }
  function MarginOf(f: FirmRecord): real { f.firm.price - f.firm.variableCost }
  function CccOf(f: FirmRecord): real { OrZero(f.creditBalance) }
  function ProfitOf(f: FirmRecord): real { OrZero(f.profitChange) }
  function AbatementOf(f: FirmRecord): real { OrZero(f.abatementCost) }

  /** Output relative to baseline; only read for firms with a non-zero
      baseline (the contract of `StatsOf`), the other branch is never taken. */
  function QRatioOf(f: FirmRecord): real
  {
    if f.firm.production != 0.0 then OutputOf(f) / f.firm.production else 0.0
  }

  /** Within 0.001 of the lower / upper capacity bound. */
  predicate AtLowerCap(f: FirmRecord) { Abs(OutputOf(f) - f.firm.capMin) < 0.001 }
  predicate AtUpperCap(f: FirmRecord) { Abs(OutputOf(f) - f.firm.capMax) < 0.001 }

  /** The certificate cost and revenue terms of one firm, in credits (no price
      factor), counted only for firms that carry a profit change. */
  function CarbonCostTerm(f: FirmRecord): (t: real)
    ensures t >= 0.0
  {
    var ccc := OrZero(f.creditBalance);
    if ccc < 0.0 then -ccc * (if f.profitChange.Some? then 1.0 else 0.0) else 0.0
  }

  function CarbonRevenueTerm(f: FirmRecord): (t: real)
    ensures t >= 0.0
  {
    var ccc := OrZero(f.creditBalance);
    if ccc > 0.0 then ccc * (if f.profitChange.Some? then 1.0 else 0.0) else 0.0
  }

  // ---------------------------------------------------------------------------
  // Rankings
  // ---------------------------------------------------------------------------

  datatype FirmRanking = FirmRanking(id: string, sector: string, ccc: real, profit: real)

  function Ranking(f: FirmRecord): FirmRanking
  {
    FirmRanking(f.firm.id, f.firm.sector, OrZero(f.creditBalance), OrZero(f.profitChange))
  }

  predicate IsSellerRecord(f: FirmRecord) { OrZero(f.creditBalance) > 0.001 }
  predicate IsBuyerRecord(f: FirmRecord) { OrZero(f.creditBalance) < -0.001 }

  /** The rankings of the firms that pass `keep`, in order. */
  function Ranked(fs: seq<FirmRecord>, keep: FirmRecord -> bool): (r: seq<FirmRanking>)
    decreases |fs|
  {
    if fs == [] then []
    else
      var n := |fs| - 1;
      Ranked(fs[..n], keep) + (if keep(fs[n]) then [Ranking(fs[n])] else [])
  }

  /** Each ranking comes from a kept firm, and each kept firm is ranked. */
  lemma {:induction false} RankedExactly(fs: seq<FirmRecord>, keep: FirmRecord -> bool, x: FirmRanking)
    ensures x in Ranked(fs, keep) <==> exists i :: 0 <= i < |fs| && keep(fs[i]) && Ranking(fs[i]) == x
    decreases |fs|
  {
    if fs != [] {
      var n := |fs| - 1;
      RankedExactly(fs[..n], keep, x);
      if exists i :: 0 <= i < |fs| && keep(fs[i]) && Ranking(fs[i]) == x {
        var i :| 0 <= i < |fs| && keep(fs[i]) && Ranking(fs[i]) == x;
        if i < n {
          assert fs[..n][i] == fs[i];
        }
      }
      if exists i :: 0 <= i < n && keep(fs[..n][i]) && Ranking(fs[..n][i]) == x {
        var i :| 0 <= i < n && keep(fs[..n][i]) && Ranking(fs[..n][i]) == x;
        assert fs[i] == fs[..n][i];
      }
    }
  }

  /** Each ranking of a member list is the ranking of a firm of the archetype
      that passes the filter. */
  lemma RankedComesFrom(firms: seq<FirmRecord>, a: Archetype, keep: FirmRecord -> bool, r: FirmRanking)
    requires r in Ranked(Members(firms, a), keep)
    ensures exists j :: 0 <= j < |firms| && firms[j].archetype == Some(a) && keep(firms[j]) && Ranking(firms[j]) == r
  {
    var members := Members(firms, a);
    RankedExactly(members, keep, r);
    var m :| 0 <= m < |members| && keep(members[m]) && Ranking(members[m]) == r;
    MembersExactly(firms, a, members[m]);
  }

  /** `.slice(0, 5)`. */
  function Take5<T>(s: seq<T>): (t: seq<T>)
    ensures |t| == if |s| <= 5 then |s| else 5
    ensures t == s[..|t|]
  {
    if |s| <= 5 then s else s[..5]
  }

  /** The first five of a sorted list are sorted, and any entry not among them
      comes no earlier than the last of them. */
  lemma TopOfSorted<T>(s: seq<T>, key: T -> real, x: T)
    requires SortedBy(s, key) && x in s
    ensures SortedBy(Take5(s), key)
    ensures x in Take5(s) || key(Take5(s)[|Take5(s)| - 1]) <= key(x)
  {
    var t := Take5(s);
    var j :| 0 <= j < |s| && s[j] == x;
    if j < |t| {
      assert t[j] == x;
    }
  }

  /** The credit balance as the seller ranking sorts it: largest first. */
  function NegCcc(r: FirmRanking): real { -r.ccc }

  /** The ccc as the buyer ranking sorts it: most negative first. */
  function Ccc(r: FirmRanking): real { r.ccc }

  function TopSellers(members: seq<FirmRecord>): seq<FirmRanking>
  {
    Take5(SortBy(Ranked(members, IsSellerRecord), NegCcc))
  }

  function TopBuyers(members: seq<FirmRecord>): seq<FirmRanking>
  {
    Take5(SortBy(Ranked(members, IsBuyerRecord), Ccc))
  }

  // ---------------------------------------------------------------------------
  // The detail record of one archetype
  // ---------------------------------------------------------------------------

  datatype ArchetypeStats = ArchetypeStats(
    archetype: Archetype,
    firmCount: nat,
    shareOfTotalQ: real,
    medianK: real, iqrK: (real, real),
    medianGap: real, iqrGap: (real, real),
    medianMargin: real, iqrMargin: (real, real),
    medianQRatio: real, iqrQRatio: (real, real),
    medianCCCPerFirm: real, iqrCCCPerFirm: (real, real),
    medianProfitPerFirm: real, iqrProfitPerFirm: (real, real),
    firmsAtLowerCap: nat,
    firmsAtUpperCap: nat,
    percentAtLowerCap: real,
    percentAtUpperCap: real,
    topSellers: seq<FirmRanking>,
    topBuyers: seq<FirmRanking>,
    totalAbatementCost: real,
    totalCarbonCost: real,
    totalCarbonRevenue: real)

  /** The record for an archetype no firm carries. */
  function EmptyStats(a: Archetype): ArchetypeStats
  {
    ArchetypeStats(a, 0, 0.0, 0.0, (0.0, 0.0), 0.0, (0.0, 0.0), 0.0, (0.0, 0.0), 0.0, (0.0, 0.0),
                   0.0, (0.0, 0.0), 0.0, (0.0, 0.0), 0, 0, 0.0, 0.0, [], [], 0.0, 0.0, 0.0)
  }

  /** What the engine divides by: the total output, and each member's baseline
      output, whenever the archetype has members. */
  predicate Divisible(firms: seq<FirmRecord>, a: Archetype, totalQ: real)
  {
    forall i :: 0 <= i < |firms| && firms[i].archetype == Some(a) ==> firms[i].firm.production != 0.0 && totalQ != 0.0
  }

  /** The detail record of archetype `a` from its (non-empty) members and
      their cap counts: median and quartiles of each figure, output share, cap
      shares, the rankings and the totals. */
  function Assemble(a: Archetype, members: seq<FirmRecord>, lower: nat, upper: nat, totalQ: real): ArchetypeStats
    requires |members| > 0 && totalQ != 0.0
  {
    var k := ComputeDistributionStats(Values(members, KOf));
    var gap := ComputeDistributionStats(Values(members, GapOf));
    var margin := ComputeDistributionStats(Values(members, MarginOf));
    var q := ComputeDistributionStats(Values(members, QRatioOf));
    var ccc := ComputeDistributionStats(Values(members, CccOf));
    var profit := ComputeDistributionStats(Values(members, ProfitOf));
    var count := |members| as real;
    ArchetypeStats(a, |members|, Sum(Values(members, OutputOf)) / totalQ,
                   k.median, (k.p25, k.p75), gap.median, (gap.p25, gap.p75),
                   margin.median, (margin.p25, margin.p75), q.median, (q.p25, q.p75),
                   ccc.median, (ccc.p25, ccc.p75), profit.median, (profit.p25, profit.p75),
                   lower, upper, Share(lower as real, count), Share(upper as real, count),
                   TopSellers(members), TopBuyers(members),
                   Sum(Values(members, AbatementOf)), Sum(Values(members, CarbonCostTerm)),
                   Sum(Values(members, CarbonRevenueTerm)))
  }

  /** The detail record of archetype `a`: the all-zero record when no firm
      carries it, otherwise the record of its members with their cap counts. */
  function StatsOf(firms: seq<FirmRecord>, a: Archetype, totalQ: real): ArchetypeStats
    requires Divisible(firms, a, totalQ)
  {
    var members := Members(firms, a);
    if |members| == 0 then EmptyStats(a)
    else
      MembersExactly(firms, a, members[0]);
      Assemble(a, members, CountIf(members, AtLowerCap), CountIf(members, AtUpperCap), totalQ)
  }

  /** `computeArchetypeStats`: the members, one pass over them counting those
      at either capacity bound, then the record. */
  method ComputeArchetypeStats(firms: seq<FirmRecord>, archetype: Archetype, totalQ: real) returns (res: ArchetypeStats)
    requires Divisible(firms, archetype, totalQ)
    ensures res == StatsOf(firms, archetype, totalQ)
  {
    var members := Members(firms, archetype);
    if |members| == 0 {
      return EmptyStats(archetype);
    }
    MembersExactly(firms, archetype, members[0]);
    var firmsAtLowerCap, firmsAtUpperCap := 0, 0;
    for i := 0 to |members|
      invariant firmsAtLowerCap == CountIf(members[..i], AtLowerCap)
      invariant firmsAtUpperCap == CountIf(members[..i], AtUpperCap)
    {
      CountIfPrefixStep(members, AtLowerCap, i);
      CountIfPrefixStep(members, AtUpperCap, i);
      var output := OutputOf(members[i]);
      if Abs(output - members[i].firm.capMin) < 0.001 {
        firmsAtLowerCap := firmsAtLowerCap + 1;
      }
      if Abs(output - members[i].firm.capMax) < 0.001 {
        firmsAtUpperCap := firmsAtUpperCap + 1;
      }
    }
    assert members[..|members|] == members;
    res := Assemble(archetype, members, firmsAtLowerCap, firmsAtUpperCap, totalQ);
  }

  /** An archetype without firms gets the all-zero record with no rankings;
      otherwise the firm count is the summary's count for it, and the cap
      counts are at most the firm count with shares in [0, 100]. */
  lemma StatsCounts(firms: seq<FirmRecord>, a: Archetype, totalQ: real)
    requires Divisible(firms, a, totalQ)
    ensures var s := StatsOf(firms, a, totalQ);
      && s.firmCount == TotalsOf(firms, a).count
      && (s.firmCount == 0 ==> s == EmptyStats(a) && s.topSellers == [] && s.topBuyers == [])
      && s.firmsAtLowerCap <= s.firmCount && s.firmsAtUpperCap <= s.firmCount
      && 0.0 <= s.percentAtLowerCap <= 100.0 && 0.0 <= s.percentAtUpperCap <= 100.0
  {
    MembersCount(firms, a);
  }

  /** Each median lies between its quartiles. */
  lemma StatsQuartiles(firms: seq<FirmRecord>, a: Archetype, totalQ: real)
    requires Divisible(firms, a, totalQ)
    ensures var s := StatsOf(firms, a, totalQ);
      && s.iqrK.0 <= s.medianK <= s.iqrK.1
      && s.iqrGap.0 <= s.medianGap <= s.iqrGap.1
      && s.iqrMargin.0 <= s.medianMargin <= s.iqrMargin.1
      && s.iqrQRatio.0 <= s.medianQRatio <= s.iqrQRatio.1
      && s.iqrCCCPerFirm.0 <= s.medianCCCPerFirm <= s.iqrCCCPerFirm.1
      && s.iqrProfitPerFirm.0 <= s.medianProfitPerFirm <= s.iqrProfitPerFirm.1
  {
    var members := Members(firms, a);
    if |members| > 0 {
      DistributionStatsOrdered(Values(members, KOf));
      DistributionStatsOrdered(Values(members, GapOf));
      DistributionStatsOrdered(Values(members, MarginOf));
      DistributionStatsOrdered(Values(members, QRatioOf));
      DistributionStatsOrdered(Values(members, CccOf));
      DistributionStatsOrdered(Values(members, ProfitOf));
    }
  }

  /** The top sellers: at most five, each the ranking of a firm of the
      archetype with a balance above 0.001, largest balance first, and every
      such firm either listed or not above the last one listed. */
  lemma TopSellersFacts(firms: seq<FirmRecord>, a: Archetype, i: nat)
    requires i < |firms| && firms[i].archetype == Some(a) && IsSellerRecord(firms[i])
    ensures var top := TopSellers(Members(firms, a));
      && 0 < |top| <= 5
      && SortedBy(top, NegCcc)
      && (forall r :: r in top ==> r.ccc > 0.001 && exists j :: 0 <= j < |firms| && firms[j].archetype == Some(a) && Ranking(firms[j]) == r)
      && (Ranking(firms[i]) in top || firms[i].creditBalance.value <= top[|top| - 1].ccc)
  {
    var members := Members(firms, a);
    var ranked := Ranked(members, IsSellerRecord);
    var sorted := SortBy(ranked, NegCcc);
    MembersExactly(firms, a, firms[i]);
    var m :| 0 <= m < |members| && members[m] == firms[i];
    RankedExactly(members, IsSellerRecord, Ranking(firms[i]));
    assert Ranking(firms[i]) in multiset(sorted);
    TopOfSorted(sorted, NegCcc, Ranking(firms[i]));
    forall r | r in Take5(sorted)
      ensures exists j :: 0 <= j < |firms| && firms[j].archetype == Some(a) && IsSellerRecord(firms[j]) && Ranking(firms[j]) == r
    {
      assert r in multiset(ranked);
      RankedComesFrom(firms, a, IsSellerRecord, r);
    }
  }

  /** The top buyers: at most five, each the ranking of a firm of the
      archetype with a balance below -0.001, most negative first, and every such
      firm either listed or not below the last one listed. */
  lemma TopBuyersFacts(firms: seq<FirmRecord>, a: Archetype, i: nat)
    requires i < |firms| && firms[i].archetype == Some(a) && IsBuyerRecord(firms[i])
    ensures var top := TopBuyers(Members(firms, a));
      && 0 < |top| <= 5
      && SortedBy(top, Ccc)
      && (forall r :: r in top ==> r.ccc < -0.001 && exists j :: 0 <= j < |firms| && firms[j].archetype == Some(a) && Ranking(firms[j]) == r)
      && (Ranking(firms[i]) in top || firms[i].creditBalance.value >= top[|top| - 1].ccc)
  {
    var members := Members(firms, a);
    var ranked := Ranked(members, IsBuyerRecord);
    var sorted := SortBy(ranked, Ccc);
    MembersExactly(firms, a, firms[i]);
    var m :| 0 <= m < |members| && members[m] == firms[i];
    RankedExactly(members, IsBuyerRecord, Ranking(firms[i]));
    assert Ranking(firms[i]) in multiset(sorted);
    TopOfSorted(sorted, Ccc, Ranking(firms[i]));
    forall r | r in Take5(sorted)
      ensures exists j :: 0 <= j < |firms| && firms[j].archetype == Some(a) && IsBuyerRecord(firms[j]) && Ranking(firms[j]) == r
    {
      assert r in multiset(ranked);
      RankedComesFrom(firms, a, IsBuyerRecord, r);
    }
  }

  /** The top sellers of any archetype, seller or not: at most five, largest
      balance first, each the ranking of a member with a balance above 0.001,
      and none at all when no member is a seller. */
  lemma TopSellersShape(firms: seq<FirmRecord>, a: Archetype)
    ensures var top := TopSellers(Members(firms, a));
      && |top| <= 5
      && SortedBy(top, NegCcc)
      && (forall r :: r in top ==> r.ccc > 0.001 && exists j :: 0 <= j < |firms| && firms[j].archetype == Some(a) && Ranking(firms[j]) == r)
      && ((forall i :: 0 <= i < |firms| && firms[i].archetype == Some(a) ==> !IsSellerRecord(firms[i])) ==> top == [])
  {
    var ranked := Ranked(Members(firms, a), IsSellerRecord);
    var sorted := SortBy(ranked, NegCcc);
    forall r | r in Take5(sorted)
      ensures exists j :: 0 <= j < |firms| && firms[j].archetype == Some(a) && IsSellerRecord(firms[j]) && Ranking(firms[j]) == r
    {
      assert r in multiset(ranked);
      RankedComesFrom(firms, a, IsSellerRecord, r);
    }
    if sorted != [] {
      assert sorted[0] in Take5(sorted);
    }
  }

  /** The top buyers of any archetype: at most five, most negative balance
      first, each the ranking of a member with a balance below -0.001, and none
      at all when no member is a buyer. */
  lemma TopBuyersShape(firms: seq<FirmRecord>, a: Archetype)
    ensures var top := TopBuyers(Members(firms, a));
      && |top| <= 5
      && SortedBy(top, Ccc)
      && (forall r :: r in top ==> r.ccc < -0.001 && exists j :: 0 <= j < |firms| && firms[j].archetype == Some(a) && Ranking(firms[j]) == r)
      && ((forall i :: 0 <= i < |firms| && firms[i].archetype == Some(a) ==> !IsBuyerRecord(firms[i])) ==> top == [])
  {
    var ranked := Ranked(Members(firms, a), IsBuyerRecord);
    var sorted := SortBy(ranked, Ccc);
    forall r | r in Take5(sorted)
      ensures exists j :: 0 <= j < |firms| && firms[j].archetype == Some(a) && IsBuyerRecord(firms[j]) && Ranking(firms[j]) == r
    {
      assert r in multiset(ranked);
      RankedComesFrom(firms, a, IsBuyerRecord, r);
    }
    if sorted != [] {
      assert sorted[0] in Take5(sorted);
    }
  }


  /** Certificate revenue minus cost of the members is their net balance in
      credits: no price factor enters. */
  lemma {:induction false} CarbonTermsNet(fs: seq<FirmRecord>)
    requires forall i :: 0 <= i < |fs| ==> fs[i].profitChange.Some?
    ensures Sum(Values(fs, CarbonRevenueTerm)) - Sum(Values(fs, CarbonCostTerm)) == Sum(Values(fs, CccOf))
    decreases |fs|
  {
    if fs != [] {
      CarbonTermsNet(fs[..|fs| - 1]);
    }
  }

  /** The members' net balance is the summary's net balance for the archetype. */
  lemma {:induction false} MembersBalance(firms: seq<FirmRecord>, a: Archetype)
    ensures Sum(Values(Members(firms, a), CccOf)) == TotalsOf(firms, a).totalCreditBalance
    decreases |firms|
  {
    if firms != [] {
      var n := |firms| - 1;
      MembersBalance(firms[..n], a);
    }
  }

  /** The archetype's certificate cost and revenue are non-negative, and for
      simulated firms revenue minus cost is the archetype's net credit balance
      (in credits, not money). */
  lemma StatsCarbon(firms: seq<FirmRecord>, a: Archetype, totalQ: real)
    requires Divisible(firms, a, totalQ)
    ensures var s := StatsOf(firms, a, totalQ);
      && s.totalCarbonCost >= 0.0 && s.totalCarbonRevenue >= 0.0
      && (AllSimulated(firms) ==> s.totalCarbonRevenue - s.totalCarbonCost == TotalsOf(firms, a).totalCreditBalance)
  {
    var members := Members(firms, a);
    if |members| > 0 {
      ValuesNonNegative(members, CarbonCostTerm);
      ValuesNonNegative(members, CarbonRevenueTerm);
      if AllSimulated(firms) {
        forall i | 0 <= i < |members|
          ensures members[i].profitChange.Some?
        {
          MembersExactly(firms, a, members[i]);
        }
        CarbonTermsNet(members);
        MembersBalance(firms, a);
      }
    } else {
      MembersCount(firms, a);
      MembersBalance(firms, a);
    }
  }

  lemma ValuesNonNegative(fs: seq<FirmRecord>, g: FirmRecord -> real)
    requires forall f :: g(f) >= 0.0
    ensures Sum(Values(fs, g)) >= 0.0
  {
    SumNonNegative(Values(fs, g));
  }

  // ---------------------------------------------------------------------------
  // Profit decomposition
  // ---------------------------------------------------------------------------

  datatype ProfitDecomposition = ProfitDecomposition(
    totalAbatementCost: real,
    totalCarbonCost: real,
    totalCarbonRevenue: real,
    netCarbonTransfer: real,
    totalProfitImpact: real)

  /** The three accumulators of `computeProfitDecomposition` after the given
      firms: a missing figure counts as zero, a negative balance costs its size
      times the price, a positive one earns it, a zero one does neither. */
  datatype Accumulators = Accumulators(abatement: real, cost: real, revenue: real)

  function Accumulate(firms: seq<FirmRecord>, carbonPrice: real): Accumulators
    decreases |firms|
  {
    if firms == [] then Accumulators(0.0, 0.0, 0.0)
    else
      var n := |firms| - 1;
      var acc := Accumulate(firms[..n], carbonPrice);
      var ccc := OrZero(firms[n].creditBalance);
      var abatement := acc.abatement + OrZero(firms[n].abatementCost);
      if ccc < 0.0 then Accumulators(abatement, acc.cost + -ccc * carbonPrice, acc.revenue)
      else if ccc > 0.0 then Accumulators(abatement, acc.cost, acc.revenue + ccc * carbonPrice)
      else Accumulators(abatement, acc.cost, acc.revenue)
  }

  /** The decomposition built from the accumulators. */
  function Decompose(firms: seq<FirmRecord>, carbonPrice: real): ProfitDecomposition
  {
    var acc := Accumulate(firms, carbonPrice);
    ProfitDecomposition(acc.abatement, acc.cost, acc.revenue, acc.revenue - acc.cost,
                        -acc.abatement - acc.cost + acc.revenue)
  }

  /** `computeProfitDecomposition`: one pass over the firms. */
  method ComputeProfitDecomposition(firms: seq<FirmRecord>, carbonPrice: real) returns (d: ProfitDecomposition)
    ensures d == Decompose(firms, carbonPrice)
  {
    var totalAbatementCost := 0.0;
    var totalCarbonCost := 0.0;
    var totalCarbonRevenue := 0.0;
    for i := 0 to |firms|
      invariant Accumulators(totalAbatementCost, totalCarbonCost, totalCarbonRevenue) == Accumulate(firms[..i], carbonPrice)
    {
      assert firms[..i + 1][..i] == firms[..i];
      totalAbatementCost := totalAbatementCost + OrZero(firms[i].abatementCost);
      var ccc := OrZero(firms[i].creditBalance);
      if ccc < 0.0 {
        totalCarbonCost := totalCarbonCost + -ccc * carbonPrice;
      } else if ccc > 0.0 {
        totalCarbonRevenue := totalCarbonRevenue + ccc * carbonPrice;
      }
    }
    assert firms[..|firms|] == firms;
    d := ProfitDecomposition(totalAbatementCost, totalCarbonCost, totalCarbonRevenue,
                             totalCarbonRevenue - totalCarbonCost,
                             -totalAbatementCost - totalCarbonCost + totalCarbonRevenue);
  }

  /** For a non-negative price, cost and revenue never go negative. */
  lemma {:induction false} AccumulateNonNegative(firms: seq<FirmRecord>, carbonPrice: real)
    requires carbonPrice >= 0.0
    ensures Accumulate(firms, carbonPrice).cost >= 0.0 && Accumulate(firms, carbonPrice).revenue >= 0.0
    decreases |firms|
  {
    if firms != [] {
      var n := |firms| - 1;
      var ccc := OrZero(firms[n].creditBalance);
      AccumulateNonNegative(firms[..n], carbonPrice);
      if ccc < 0.0 { MulNonNegative(-ccc, carbonPrice); }
      if ccc > 0.0 { MulNonNegative(ccc, carbonPrice); }
    }
  }

  /** One more firm moves revenue minus cost by the price times its balance. */
  lemma AccumulateStep(firms: seq<FirmRecord>, carbonPrice: real)
    requires firms != []
    ensures var n := |firms| - 1;
      Accumulate(firms, carbonPrice).revenue - Accumulate(firms, carbonPrice).cost
        == Accumulate(firms[..n], carbonPrice).revenue - Accumulate(firms[..n], carbonPrice).cost
           + CarbonSimulator.CreditValue(carbonPrice, OrZero(firms[n].creditBalance))
  {
    var ccc := OrZero(firms[|firms| - 1].creditBalance);
    assert -ccc * carbonPrice == -(carbonPrice * ccc) && ccc * carbonPrice == carbonPrice * ccc;
  }

  /** Revenue minus cost is the price times the firms' net credit balance. */
  lemma {:induction false} AccumulateNet(firms: seq<FirmRecord>, carbonPrice: real)
    ensures Accumulate(firms, carbonPrice).revenue - Accumulate(firms, carbonPrice).cost
         == CarbonSimulator.CreditValue(carbonPrice, Sum(Column(firms, CreditBalanceOf)))
    decreases |firms|
  {
    if firms != [] {
      var n := |firms| - 1;
      var ccc := OrZero(firms[n].creditBalance);
      var before := Sum(Column(firms[..n], CreditBalanceOf));
      AccumulateNet(firms[..n], carbonPrice);
      AccumulateStep(firms, carbonPrice);
      SumSnoc(Column(firms[..n], CreditBalanceOf), ccc);
      NetStep(carbonPrice, before, ccc,
              Accumulate(firms[..n], carbonPrice).revenue - Accumulate(firms[..n], carbonPrice).cost,
              Accumulate(firms, carbonPrice).revenue - Accumulate(firms, carbonPrice).cost);
    }
  }

  /** The arithmetic of one step of `AccumulateNet`. */
  lemma NetStep(P: real, before: real, ccc: real, net: real, net': real)
    requires net == CarbonSimulator.CreditValue(P, before)
    requires net' == net + CarbonSimulator.CreditValue(P, ccc)
    ensures net' == CarbonSimulator.CreditValue(P, before + ccc)
  {
    Distribute(P, before, ccc);
  }

  /** The decomposition's identities: net transfer is revenue minus cost and
      equals the price times the net credit balance; total impact is net
      transfer minus abatement cost; cost and revenue are non-negative for a
      non-negative price. */
  lemma DecompositionIdentities(firms: seq<FirmRecord>, carbonPrice: real)
    ensures var d := Decompose(firms, carbonPrice);
      && d.netCarbonTransfer == d.totalCarbonRevenue - d.totalCarbonCost
      && d.totalProfitImpact == d.netCarbonTransfer - d.totalAbatementCost
      && d.netCarbonTransfer == CarbonSimulator.CreditValue(carbonPrice, Sum(Column(firms, CreditBalanceOf)))
      && (carbonPrice >= 0.0 ==> d.totalCarbonCost >= 0.0 && d.totalCarbonRevenue >= 0.0)
  {
    AccumulateNet(firms, carbonPrice);
    if carbonPrice >= 0.0 {
      AccumulateNonNegative(firms, carbonPrice);
    }
  }

  /** A firm with a zero (or missing) balance adds to neither cost nor revenue. */
  lemma ZeroBalanceAddsNoTransfer(firms: seq<FirmRecord>, f: FirmRecord, carbonPrice: real)
    requires OrZero(f.creditBalance) == 0.0
    ensures Accumulate(firms + [f], carbonPrice).cost == Accumulate(firms, carbonPrice).cost
    ensures Accumulate(firms + [f], carbonPrice).revenue == Accumulate(firms, carbonPrice).revenue
  {
    assert (firms + [f])[..|firms|] == firms;
  }

  /** One more firm moves the total impact by its revenue minus its cost minus
      its abatement cost. */
  lemma ImpactStep(firms: seq<FirmRecord>, carbonPrice: real)
    requires firms != []
    ensures var n := |firms| - 1;
      var ccc := OrZero(firms[n].creditBalance);
      Decompose(firms, carbonPrice).totalProfitImpact
        == Decompose(firms[..n], carbonPrice).totalProfitImpact - OrZero(firms[n].abatementCost)
           - CostTerm(ccc, carbonPrice) + RevenueTerm(ccc, carbonPrice)
  {
  }

  /** What a balance adds to the certificate cost and to the revenue. */
  function CostTerm(ccc: real, carbonPrice: real): real
  {
    if ccc < 0.0 then -ccc * carbonPrice else 0.0
  }

  function RevenueTerm(ccc: real, carbonPrice: real): real
  {
    if ccc > 0.0 then ccc * carbonPrice else 0.0
  }

  /** A firm's profit change in the decomposition's terms. */
  lemma FirmImpact(f: SyntheticFirm, P: real)
    requires f.k != 0.0
    ensures var r := RespondFirm(f, P);
      r.profitChange == -r.abatementCost - CostTerm(r.creditBalance, P) + RevenueTerm(r.creditBalance, P)
  {
    CertificateFlows(P, RespondFirm(f, P).creditBalance);
  }

  /** Decomposing the records of a simulation at the same price gives back the
      simulation's total profit impact. */
  lemma {:induction false} DecompositionMatchesSimulation(P: real, firms: seq<FirmRecord>, totals: map<string, real>)
    requires NonZeroK(firms)
    ensures Decompose(SimulateFirms(P, firms, totals).updatedFirms, P).totalProfitImpact
         == SimulateFirms(P, firms, totals).totalProfitImpact
    decreases |firms|
  {
    if firms != [] {
      var n := |firms| - 1;
      var ups := SimulateFirms(P, firms, totals).updatedFirms;
      var prev := SimulateFirms(P, firms[..n], totals).updatedFirms;
      DecompositionMatchesSimulation(P, firms[..n], totals);
      SimulateFirmsStep(P, firms, totals, n);
      assert firms[..n + 1] == firms;
      var r := RespondFirm(firms[n].firm, P);
      assert ups == prev + [Update(firms[n], r, totals)];
      assert ups[..n] == prev;
      ImpactStep(ups, P);
      FirmImpact(firms[n].firm, P);
    }
  }
}
