/** The firm-level equilibrium engine: the sector engine's price response run
    over the synthetic cohort with every firm's output fixed at its baseline,
    each firm tagged with its behavioural archetype, a bisection over the price
    for a zero market balance, and the summary the application shows
    (participant counts and one aggregate per archetype, largest first). */
module FirmSimulator {
  import opened Common
  import opened Constants
  import opened Sorting
  import opened FirmGenerator
  import CarbonSimulator
  import MarketUtils

  /** Bisection settings of the firm engine (its price interval is the sector
      engine's `[P_MIN, P_MAX]`, written out as literals in this engine). */
  const FirmTolerance: real := 0.000001
  const FirmMaxIterations: nat := 2000

  /** Threshold of the buyer/seller counts in the result summary. */
  const CountThreshold: real := 0.001

  /** A firm as the application passes it around: the generated figures plus
      the figures a simulation adds, each absent until one has run. */
  datatype FirmRecord = FirmRecord(
    firm: SyntheticFirm,
    optimalIntensity: Option<real>,
    creditBalance: Option<real>,
    emissionsReduced: Option<real>,
    abatementCost: Option<real>,
    profitChange: Option<real>,
    archetype: Option<Archetype>,
    actualProduction: Option<real>)

  // ---------------------------------------------------------------------------
  // One firm at one price
  // ---------------------------------------------------------------------------

  /** `calculateOptimalIntensity`: `max(0, e0 - P / (2k))`, the sector
      engine's optimal intensity. */
  function CalculateOptimalIntensity(baseIntensity: real, carbonPrice: real, k: real): (r: real)
    requires k != 0.0
    ensures r == CarbonSimulator.EStar(baseIntensity, k, carbonPrice)
    ensures r >= 0.0
    ensures baseIntensity >= 0.0 && carbonPrice >= 0.0 && k > 0.0 ==> r <= baseIntensity
  {
    Max(0.0, baseIntensity - carbonPrice / (2.0 * k))
  }

  /** Everything `simulateFirmsAtPrice` computes for one firm. */
  datatype FirmResponse = FirmResponse(
    optimalIntensity: real,
    creditBalance: real,
    emissionsReduced: real,
    abatementCost: real,
    carbonCost: real,
    carbonRevenue: real,
    profitChange: real)

  /** The response of firm `f` to price `P`, its output fixed at `production`. */
  function RespondFirm(f: SyntheticFirm, P: real): (r: FirmResponse)
    requires f.k != 0.0
    ensures r.optimalIntensity >= 0.0
    ensures f.baseIntensity >= 0.0 && P >= 0.0 && f.k > 0.0 ==> r.optimalIntensity <= f.baseIntensity
    ensures r.carbonCost == 0.0 || r.carbonRevenue == 0.0
  {
    var eS := CalculateOptimalIntensity(f.baseIntensity, P, f.k);
    var creditBalance := CarbonSimulator.CreditBalance(f.production, f.target, eS);
    var emissionsReduced := f.production * (f.baseIntensity - eS);
    var intensityReduction := f.baseIntensity - eS;
    var abatementCost := f.k * f.production * intensityReduction * intensityReduction;
    var carbonCost := CarbonSimulator.CreditValue(P, Max(0.0, -creditBalance));
    var carbonRevenue := CarbonSimulator.CreditValue(P, Max(0.0, creditBalance));
    FirmResponse(eS, creditBalance, emissionsReduced, abatementCost, carbonCost, carbonRevenue,
                 -abatementCost - carbonCost + carbonRevenue)
  }

  /** A firm's response: its balance is its output times the gap between
      target and optimal intensity; abatement cost and reduction are
      non-negative for sane inputs; it never both pays and earns; its profit
      change is the value of its balance minus its abatement cost, zero at price
      zero for a non-negative baseline. */
  lemma RespondFirmProperties(f: SyntheticFirm, P: real)
    requires f.k != 0.0
    ensures var r := RespondFirm(f, P);
      && r.creditBalance == CarbonSimulator.CreditBalance(f.production, f.target, r.optimalIntensity)
      && (f.k > 0.0 && f.production >= 0.0 ==> r.abatementCost >= 0.0)
      && (f.baseIntensity >= 0.0 && f.production >= 0.0 && f.k > 0.0 && P >= 0.0 ==> r.emissionsReduced >= 0.0)
      && (r.carbonCost == 0.0 || r.carbonRevenue == 0.0)
      && (P >= 0.0 ==> r.carbonCost >= 0.0 && r.carbonRevenue >= 0.0)
      && r.profitChange == -r.abatementCost + CarbonSimulator.CreditValue(P, r.creditBalance)
      && (P == 0.0 && f.baseIntensity >= 0.0 ==> r.abatementCost == 0.0 && r.profitChange == 0.0)
  {
    var r := RespondFirm(f, P);
    var red := f.baseIntensity - r.optimalIntensity;
    if f.k > 0.0 && f.production >= 0.0 {
      MulNonNegative(f.k, f.production);
      assert f.k * f.production * red * red == (f.k * f.production) * (red * red);
      MulNonNegative(f.k * f.production, red * red);
    }
    if f.baseIntensity >= 0.0 && f.production >= 0.0 && f.k > 0.0 && P >= 0.0 {
      MulNonNegative(f.production, red);
    }
    if P >= 0.0 {
      MulNonNegative(P, Max(0.0, -r.creditBalance));
      MulNonNegative(P, Max(0.0, r.creditBalance));
    }
    assert Max(0.0, r.creditBalance) + -Max(0.0, -r.creditBalance) == r.creditBalance;
    Distribute(P, Max(0.0, r.creditBalance), -Max(0.0, -r.creditBalance));
  }

  /** The sector row a firm stands for. */
  function AsSector(f: SyntheticFirm): SectorData
  {
    SectorData(f.sector, f.production * f.baseIntensity, f.production, f.baseIntensity, f.target)
  }

  /** The cost row a firm stands for. */
  function AsCost(f: SyntheticFirm): CostData
  {
    CostData(f.id, f.sector, f.fixedCost, f.variableCost, f.price, f.k)
  }

  /** A firm responds exactly as a sector with its figures does in the sector
      engine with output elasticity off; the abatement cost, which this engine
      squares without first cutting the reduction at zero, agrees whenever the
      reduction is non-negative (non-negative baseline and price, positive `k`). */
  lemma RespondFirmIsSectorResponse(f: SyntheticFirm, P: real, opts: CarbonSimulator.SimOptions)
    requires f.k != 0.0 && !opts.enableElasticity
    ensures var r, s := RespondFirm(f, P), CarbonSimulator.Respond(AsSector(f), AsCost(f), P, opts);
      && r.optimalIntensity == s.optimalIntensity
      && r.creditBalance == s.ccc
      && r.emissionsReduced == s.emissionsReduced
      && r.carbonCost == s.carbonCost
      && r.carbonRevenue == s.carbonRevenue
      && (f.baseIntensity >= 0.0 && P >= 0.0 && f.k > 0.0 ==>
            r.abatementCost == s.abatementCost && r.profitChange == s.profitChange)
  {
    var r := RespondFirm(f, P);
    CarbonSimulator.RespondProperties(AsSector(f), AsCost(f), P, opts);
    CertificateFlows(P, r.creditBalance);
  }

  /** The two ways the engines write the certificate cost and revenue of a
      balance `b` agree. */
  lemma CertificateFlows(P: real, b: real)
    ensures CarbonSimulator.CreditValue(P, Max(0.0, -b)) == (if b < 0.0 then -b * P else 0.0)
    ensures CarbonSimulator.CreditValue(P, Max(0.0, b)) == (if b > 0.0 then b * P else 0.0)
  {
  }

  // ---------------------------------------------------------------------------
  // The cohort at one price
  // ---------------------------------------------------------------------------

  /** Every firm has a non-zero abatement coefficient (the engine divides by it). */
  predicate NonZeroK(firms: seq<FirmRecord>)
  {
    forall i :: 0 <= i < |firms| ==> firms[i].firm.k != 0.0
  }

  /** The sector-name lookup `simulateFirmsAtPrice` builds from the table; a
      later row with the same name replaces an earlier one. */
  function SectorTotals(sectoral: seq<SectorData>): (totals: map<string, real>)
    ensures forall i :: 0 <= i < |sectoral| ==> sectoral[i].name in totals
    ensures forall name :: name in totals ==> exists i :: 0 <= i < |sectoral| && sectoral[i].name == name
    decreases |sectoral|
  {
    if sectoral == [] then map[]
    else
      var n := |sectoral| - 1;
      var totals := SectorTotals(sectoral[..n]);
      assert forall i :: 0 <= i < n ==> sectoral[..n][i] == sectoral[i];
      totals[sectoral[n].name := sectoral[n].production]
  }

  /** The total a sector name looks up: absent for a name not in the table. */
  function TotalFor(totals: map<string, real>, name: string): (t: Option<real>)
    ensures t.Some? <==> name in totals
    ensures name in totals ==> t.value == totals[name]
  {
    if name in totals then Some(totals[name]) else None
  }

  /** A firm record after one simulation: its generated figures (and any
      actual output it carried) kept, the response and archetype added. */
  function Update(rec: FirmRecord, r: FirmResponse, totals: map<string, real>): FirmRecord
  {
    rec.(optimalIntensity := Some(r.optimalIntensity),
         creditBalance := Some(r.creditBalance),
         emissionsReduced := Some(r.emissionsReduced),
         abatementCost := Some(r.abatementCost),
         profitChange := Some(r.profitChange),
         archetype := Some(ClassifyArchetype(rec.firm, TotalFor(totals, rec.firm.sector))))
  }

  /** What `simulateFirmsAtPrice` returns. */
  datatype FirmMarket = FirmMarket(
    marketBalance: real,
    totalEmissionsReduced: real,
    totalProfitImpact: real,
    updatedFirms: seq<FirmRecord>)

  /** The cohort at price `P`: firm by firm in input order, the three running
      totals and the updated records, as the engine's `map` builds them. */
  function SimulateFirms(P: real, firms: seq<FirmRecord>, totals: map<string, real>): (m: FirmMarket)
    requires NonZeroK(firms)
    ensures |m.updatedFirms| == |firms|
    ensures AllSimulated(m.updatedFirms)
    decreases |firms|
  {
    if firms == [] then FirmMarket(0.0, 0.0, 0.0, [])
    else
      var n := |firms| - 1;
      assert firms[..n][0..] == firms[..n];
      var m := SimulateFirms(P, firms[..n], totals);
      var r := RespondFirm(firms[n].firm, P);
      FirmMarket(m.marketBalance + r.creditBalance, m.totalEmissionsReduced + r.emissionsReduced,
                 m.totalProfitImpact + r.profitChange, m.updatedFirms + [Update(firms[n], r, totals)])
  }

  /** Simulating one more firm extends the market by that firm. */
  lemma SimulateFirmsStep(P: real, firms: seq<FirmRecord>, totals: map<string, real>, i: nat)
    requires NonZeroK(firms) && i < |firms|
    ensures NonZeroK(firms[..i]) && NonZeroK(firms[..i + 1])
    ensures var m, r := SimulateFirms(P, firms[..i], totals), RespondFirm(firms[i].firm, P);
      SimulateFirms(P, firms[..i + 1], totals)
        == FirmMarket(m.marketBalance + r.creditBalance, m.totalEmissionsReduced + r.emissionsReduced,
                      m.totalProfitImpact + r.profitChange, m.updatedFirms + [Update(firms[i], r, totals)])
  {
    assert firms[..i + 1][..i] == firms[..i];
  }

  /** `simulateFirmsAtPrice`: build the sector lookup, then one pass over the
      firms accumulating the three totals and collecting the updated records. */
  method SimulateFirmsAtPrice(firms: seq<FirmRecord>, carbonPrice: real, sectoral: seq<SectorData> := SECTORAL_DATA)
    returns (m: FirmMarket)
    requires NonZeroK(firms)
    ensures m == SimulateFirms(carbonPrice, firms, SectorTotals(sectoral))
  {
    var totalMarketBalance := 0.0;
    var totalEmissionsReduced := 0.0;
    var totalProfitImpact := 0.0;

    var sectorTotalProduction: map<string, real> := map[];
    for i := 0 to |sectoral|
      invariant sectorTotalProduction == SectorTotals(sectoral[..i])
    {
      assert sectoral[..i + 1][..i] == sectoral[..i];
      sectorTotalProduction := sectorTotalProduction[sectoral[i].name := sectoral[i].production];
    }
    assert sectoral[..|sectoral|] == sectoral;

    var updatedFirms: seq<FirmRecord> := [];
    for i := 0 to |firms|
      invariant NonZeroK(firms[..i])
      invariant FirmMarket(totalMarketBalance, totalEmissionsReduced, totalProfitImpact, updatedFirms)
             == SimulateFirms(carbonPrice, firms[..i], sectorTotalProduction)
    {
      var r := RespondFirm(firms[i].firm, carbonPrice);
      SimulateFirmsStep(carbonPrice, firms, sectorTotalProduction, i);
      totalMarketBalance := totalMarketBalance + r.creditBalance;
      totalEmissionsReduced := totalEmissionsReduced + r.emissionsReduced;
      totalProfitImpact := totalProfitImpact + r.profitChange;
      updatedFirms := updatedFirms + [Update(firms[i], r, sectorTotalProduction)];
    }
    assert firms[..|firms|] == firms;
    m := FirmMarket(totalMarketBalance, totalEmissionsReduced, totalProfitImpact, updatedFirms);
  }

  // ---------------------------------------------------------------------------
  // Properties of the cohort at one price
  // ---------------------------------------------------------------------------

  /** The records come back one per firm, in input order: record `i` keeps firm
      `i`'s generated figures and actual output and carries its response to the
      price and the archetype of its figures against its sector's total. */
  lemma {:induction false} SimulateFirmsEach(P: real, firms: seq<FirmRecord>, totals: map<string, real>, i: nat)
    requires NonZeroK(firms) && i < |firms|
    ensures var rec, r := SimulateFirms(P, firms, totals).updatedFirms[i], RespondFirm(firms[i].firm, P);
      && rec.firm == firms[i].firm
      && rec.actualProduction == firms[i].actualProduction
      && rec.optimalIntensity == Some(r.optimalIntensity)
      && rec.creditBalance == Some(r.creditBalance)
      && rec.emissionsReduced == Some(r.emissionsReduced)
      && rec.abatementCost == Some(r.abatementCost)
      && rec.profitChange == Some(r.profitChange)
      && rec.archetype == Some(ClassifyArchetype(firms[i].firm, TotalFor(totals, firms[i].firm.sector)))
    decreases |firms|
  {
    var n := |firms| - 1;
    if i < n {
      SimulateFirmsStep(P, firms, totals, n);
      assert firms[..n + 1] == firms;
      SimulateFirmsEach(P, firms[..n], totals, i);
    }
  }

  /** Every record out of a simulation carries all the simulated figures. */
  predicate IsSimulated(rec: FirmRecord)
  {
    rec.creditBalance.Some? && rec.emissionsReduced.Some? && rec.abatementCost.Some?
      && rec.profitChange.Some? && rec.archetype.Some?
  }

  predicate AllSimulated(firms: seq<FirmRecord>)
  {
    forall i :: 0 <= i < |firms| ==> IsSimulated(firms[i])
  }

  /** A field of every record, absent ones read as zero (`x || 0`), in order. */
  function Column(firms: seq<FirmRecord>, field: FirmRecord -> Option<real>): (c: seq<real>)
    ensures |c| == |firms|
    decreases |firms|
  {
    if firms == [] then [] else Column(firms[..|firms| - 1], field) + [OrZero(field(firms[|firms| - 1]))]
  }

  function CreditBalanceOf(rec: FirmRecord): Option<real> { rec.creditBalance }
  function EmissionsReducedOf(rec: FirmRecord): Option<real> { rec.emissionsReduced }
  function ProfitChangeOf(rec: FirmRecord): Option<real> { rec.profitChange }
  function AbatementCostOf(rec: FirmRecord): Option<real> { rec.abatementCost }

  /** The three totals are the sums of the per-firm figures the records carry. */
  lemma {:induction false} SimulateFirmsTotals(P: real, firms: seq<FirmRecord>, totals: map<string, real>)
    requires NonZeroK(firms)
    ensures var m := SimulateFirms(P, firms, totals);
      && m.marketBalance == Sum(Column(m.updatedFirms, CreditBalanceOf))
      && m.totalEmissionsReduced == Sum(Column(m.updatedFirms, EmissionsReducedOf))
      && m.totalProfitImpact == Sum(Column(m.updatedFirms, ProfitChangeOf))
    decreases |firms|
  {
    if firms != [] {
      var n := |firms| - 1;
      var prev := SimulateFirms(P, firms[..n], totals).updatedFirms;
      var ups := SimulateFirms(P, firms, totals).updatedFirms;
      SimulateFirmsTotals(P, firms[..n], totals);
      assert ups[..n] == prev;
    }
  }

  /** Firms that can be simulated: each with positive `k` and non-negative output. */
  predicate FirmsMonotone(firms: seq<FirmRecord>)
  {
    forall i :: 0 <= i < |firms| ==> firms[i].firm.k > 0.0 && firms[i].firm.production >= 0.0
  }

  /** With positive coefficients and non-negative outputs, the cohort's market
      balance does not fall as the price rises. */
  lemma {:induction false} FirmBalanceNonDecreasing(P1: real, P2: real, firms: seq<FirmRecord>, totals: map<string, real>)
    requires FirmsMonotone(firms) && P1 <= P2
    ensures NonZeroK(firms)
    ensures SimulateFirms(P1, firms, totals).marketBalance <= SimulateFirms(P2, firms, totals).marketBalance
    decreases |firms|
  {
    if firms != [] {
      var n := |firms| - 1;
      var f := firms[n].firm;
      assert FirmsMonotone(firms[..n]);
      FirmBalanceNonDecreasing(P1, P2, firms[..n], totals);
      CarbonSimulator.FixedOutputBalanceMonotone(f.baseIntensity, f.k, f.target, f.production, P1, P2);
    }
  }

  // ---------------------------------------------------------------------------
  // The result summary
  // ---------------------------------------------------------------------------

  /** Running totals of one archetype. */
  datatype ArchetypeTotals = ArchetypeTotals(
    count: nat,
    totalCreditBalance: real,
    totalEmissionsReduced: real,
    totalProfitChange: real)

  const NoTotals: ArchetypeTotals := ArchetypeTotals(0, 0.0, 0.0, 0.0)

  /** Adding one firm to an archetype's totals. */
  function AddFirm(s: ArchetypeTotals, rec: FirmRecord): ArchetypeTotals
  {
    ArchetypeTotals(s.count + 1, s.totalCreditBalance + OrZero(rec.creditBalance),
                    s.totalEmissionsReduced + OrZero(rec.emissionsReduced),
                    s.totalProfitChange + OrZero(rec.profitChange))
  }

  /** The totals of archetype `a` over the firms that carry it. */
  function TotalsOf(firms: seq<FirmRecord>, a: Archetype): (s: ArchetypeTotals)
    ensures s.count <= |firms|
    decreases |firms|
  {
    if firms == [] then NoTotals
    else
      var n := |firms| - 1;
      var s := TotalsOf(firms[..n], a);
      if firms[n].archetype == Some(a) then AddFirm(s, firms[n]) else s
  }

  /** The archetype map of `createSimulationResult`: its keys in insertion
      (first appearance) order, and the entry of each key. */
  datatype Tally = Tally(order: seq<Archetype>, stats: map<Archetype, ArchetypeTotals>)

  /** One step of the aggregation: create the firm's archetype entry if it is
      new (appending the key), then add the firm to it. */
  function Record(t: Tally, rec: FirmRecord): Tally
    requires rec.archetype.Some?
  {
    var a := rec.archetype.value;
    var order := if a in t.stats then t.order else t.order + [a];
    var s := if a in t.stats then t.stats[a] else NoTotals;
    Tally(order, t.stats[a := AddFirm(s, rec)])
  }

  /** The archetype map after all the firms, recorded in order. */
  function TallyOf(firms: seq<FirmRecord>): Tally
    requires AllSimulated(firms)
    decreases |firms|
  {
    if firms == [] then Tally([], map[])
    else
      var n := |firms| - 1;
      assert AllSimulated(firms[..n]);
      Record(TallyOf(firms[..n]), firms[n])
  }

  /** Keys appear once each, and exactly the keys of the map. */
  predicate WellFormed(t: Tally)
  {
    && (forall i, j :: 0 <= i < j < |t.order| ==> t.order[i] != t.order[j])
    && (forall a :: a in t.stats <==> a in t.order)
  }

  /** The map holds, for every archetype some firm carries, that archetype's
      totals (at least one firm), and nothing for the others. */
  lemma {:induction false} TallyTotals(firms: seq<FirmRecord>, a: Archetype)
    requires AllSimulated(firms)
    ensures WellFormed(TallyOf(firms))
    ensures a in TallyOf(firms).stats ==> TallyOf(firms).stats[a] == TotalsOf(firms, a) && TotalsOf(firms, a).count >= 1
    ensures a !in TallyOf(firms).stats ==> TotalsOf(firms, a) == NoTotals
    decreases |firms|
  {
    if firms != [] {
      var n := |firms| - 1;
      assert AllSimulated(firms[..n]);
      TallyTotals(firms[..n], a);
      var t := TallyOf(firms[..n]);
      var b := firms[n].archetype.value;
      if b !in t.stats {
        forall i, j | 0 <= i < j < |t.order| + 1
          ensures (t.order + [b])[i] != (t.order + [b])[j]
        {
          if j == |t.order| {
            assert t.order[i] in t.stats;
          }
        }
      }
    }
  }

  /** The sum of the counts of the listed keys. */
  function CountTotal(order: seq<Archetype>, stats: map<Archetype, ArchetypeTotals>): nat
  {
    if order == [] then 0
    else (if order[0] in stats then stats[order[0]].count else 0) + CountTotal(order[1..], stats)
  }

  /** Changing the entry of a key that is not listed leaves the sum alone. */
  lemma {:induction false} CountTotalOther(order: seq<Archetype>, stats: map<Archetype, ArchetypeTotals>, a: Archetype, v: ArchetypeTotals)
    requires a !in order
    ensures CountTotal(order, stats[a := v]) == CountTotal(order, stats)
  {
    if order != [] {
      CountTotalOther(order[1..], stats, a, v);
    }
  }

  /** Adding one to the count of a key listed once adds one to the sum. */
  lemma {:induction false} CountTotalBump(order: seq<Archetype>, stats: map<Archetype, ArchetypeTotals>, a: Archetype, v: ArchetypeTotals)
    requires forall i, j :: 0 <= i < j < |order| ==> order[i] != order[j]
    requires a in order && a in stats && v.count == stats[a].count + 1
    ensures CountTotal(order, stats[a := v]) == CountTotal(order, stats) + 1
  {
    if order[0] == a {
      assert a !in order[1..];
      CountTotalOther(order[1..], stats, a, v);
    } else {
      CountTotalBump(order[1..], stats, a, v);
    }
  }

  /** Appending a key adds its count. */
  lemma {:induction false} CountTotalSnoc(order: seq<Archetype>, stats: map<Archetype, ArchetypeTotals>, a: Archetype)
    requires a in stats
    ensures CountTotal(order + [a], stats) == CountTotal(order, stats) + stats[a].count
  {
    if order != [] {
      assert (order + [a])[1..] == order[1..] + [a];
      CountTotalSnoc(order[1..], stats, a);
    }
  }

  /** Every firm is counted under exactly one archetype. */
  lemma {:induction false} TallyCountsEveryFirm(firms: seq<FirmRecord>)
    requires AllSimulated(firms)
    ensures CountTotal(TallyOf(firms).order, TallyOf(firms).stats) == |firms|
    decreases |firms|
  {
    if firms != [] {
      var n := |firms| - 1;
      assert AllSimulated(firms[..n]);
      TallyCountsEveryFirm(firms[..n]);
      var t := TallyOf(firms[..n]);
      var b := firms[n].archetype.value;
      TallyTotals(firms[..n], b);
      if b in t.stats {
        CountTotalBump(t.order, t.stats, b, AddFirm(t.stats[b], firms[n]));
      } else {
        CountTotalOther(t.order, t.stats, b, AddFirm(NoTotals, firms[n]));
        CountTotalSnoc(t.order, t.stats[b := AddFirm(NoTotals, firms[n])], b);
      }
    }
  }

  /** Sum of the absolute credit balances, the denominator of the flow shares. */
  function AbsFlow(firms: seq<FirmRecord>): (r: real)
    ensures r >= 0.0
    decreases |firms|
  {
    if firms == [] then 0.0
    else AbsFlow(firms[..|firms| - 1]) + Abs(OrZero(firms[|firms| - 1].creditBalance))
  }

  /** The net balance of one archetype is at most the total absolute flow. */
  lemma {:induction false} ArchetypeBalanceWithinFlow(firms: seq<FirmRecord>, a: Archetype)
    ensures Abs(TotalsOf(firms, a).totalCreditBalance) <= AbsFlow(firms)
    decreases |firms|
  {
    if firms != [] {
      ArchetypeBalanceWithinFlow(firms[..|firms| - 1], a);
    }
  }

  /** One line of the archetype summary. */
  datatype ArchetypeSummary = ArchetypeSummary(
    archetype: Archetype,
    count: nat,
    cccFlowShare: real,
    emissionsReducedShare: real,
    totalProfitChange: real,
    totalCreditBalance: real)

  /** `part / whole * 100` for a positive `whole`, otherwise 0. */
  function Share(part: real, whole: real): (r: real)
    ensures whole > 0.0 && 0.0 <= part <= whole ==> 0.0 <= r <= 100.0
    ensures whole <= 0.0 ==> r == 0.0
  {
    if whole > 0.0 then
      assert 0.0 <= part <= whole ==> part / whole <= 1.0 by {
        if 0.0 <= part <= whole {
          assert part / whole <= whole / whole;
        }
      }
      part / whole * 100.0
    else 0.0
  }

  /** The summary line of archetype `a` with totals `s`. */
  function SummaryLine(a: Archetype, s: ArchetypeTotals, absFlow: real, totalEmissions: real): ArchetypeSummary
  {
    ArchetypeSummary(a, s.count, Share(Abs(s.totalCreditBalance), absFlow),
                     Share(s.totalEmissionsReduced, totalEmissions), s.totalProfitChange, s.totalCreditBalance)
  }

  /** The summary lines of the listed keys, in map order. */
  function Lines(order: seq<Archetype>, stats: map<Archetype, ArchetypeTotals>, absFlow: real, totalEmissions: real)
    : (lines: seq<ArchetypeSummary>)
    ensures |lines| == |order|
  {
    if order == [] then []
    else
      var s := if order[0] in stats then stats[order[0]] else NoTotals;
      [SummaryLine(order[0], s, absFlow, totalEmissions)] + Lines(order[1..], stats, absFlow, totalEmissions)
  }

  lemma {:induction false} LinesAt(order: seq<Archetype>, stats: map<Archetype, ArchetypeTotals>, absFlow: real,
                                   totalEmissions: real, j: nat)
    requires j < |order| && order[j] in stats
    ensures Lines(order, stats, absFlow, totalEmissions)[j] == SummaryLine(order[j], stats[order[j]], absFlow, totalEmissions)
  {
    if j > 0 {
      LinesAt(order[1..], stats, absFlow, totalEmissions, j - 1);
    }
  }

  /** The count of a line, as the sort and the totals read it. */
  function CountOf(line: ArchetypeSummary): real { line.count as real }

  /** Sort key for "largest count first". */
  function ByCountDescending(line: ArchetypeSummary): real { -(line.count as real) }

  lemma {:induction false} LinesTotal(order: seq<Archetype>, stats: map<Archetype, ArchetypeTotals>, absFlow: real,
                                      totalEmissions: real)
    ensures Total(Lines(order, stats, absFlow, totalEmissions), CountOf) == CountTotal(order, stats) as real
  {
    if order != [] {
      LinesTotal(order[1..], stats, absFlow, totalEmissions);
    }
  }

  /** The archetype summary: one line per archetype in map order, then sorted
      by count, largest first (a stable sort). */
  function Summary(firms: seq<FirmRecord>, totalEmissions: real): seq<ArchetypeSummary>
    requires AllSimulated(firms)
  {
    var t := TallyOf(firms);
    SortBy(Lines(t.order, t.stats, AbsFlow(firms), totalEmissions), ByCountDescending)
  }

  /** The summary is sorted by count, largest first; its counts add up to the
      number of firms; each line is for an archetype that some firm
      carries, with that archetype's count and net balance; every archetype a
      firm carries has a line; every flow share lies in [0, 100] and is 0 when
      there is no flow at all. */
  lemma SummaryProperties(firms: seq<FirmRecord>, totalEmissions: real)
    requires AllSimulated(firms)
    ensures var s := Summary(firms, totalEmissions);
      && SortedBy(s, ByCountDescending)
      && Total(s, CountOf) == |firms| as real
      && (forall i :: 0 <= i < |s| ==>
            && s[i].count == TotalsOf(firms, s[i].archetype).count >= 1
            && s[i].totalCreditBalance == TotalsOf(firms, s[i].archetype).totalCreditBalance
            && 0.0 <= s[i].cccFlowShare <= 100.0
            && (AbsFlow(firms) == 0.0 ==> s[i].cccFlowShare == 0.0))
      && (forall i :: 0 <= i < |firms| ==> exists j :: 0 <= j < |s| && s[j].archetype == firms[i].archetype.value)
  {
    var t := TallyOf(firms);
    var flow := AbsFlow(firms);
    var lines := Lines(t.order, t.stats, flow, totalEmissions);
    var s := Summary(firms, totalEmissions);
    TallyCountsEveryFirm(firms);
    LinesTotal(t.order, t.stats, flow, totalEmissions);
    TotalSortBy(lines, ByCountDescending, CountOf);
    forall i | 0 <= i < |s|
      ensures && s[i].count == TotalsOf(firms, s[i].archetype).count >= 1
              && s[i].totalCreditBalance == TotalsOf(firms, s[i].archetype).totalCreditBalance
              && 0.0 <= s[i].cccFlowShare <= 100.0
              && (flow == 0.0 ==> s[i].cccFlowShare == 0.0)
    {
      assert s[i] in multiset(lines);
      var j :| 0 <= j < |lines| && lines[j] == s[i];
      var a := t.order[j];
      TallyTotals(firms, a);
      LinesAt(t.order, t.stats, flow, totalEmissions, j);
      ArchetypeBalanceWithinFlow(firms, a);
    }
    forall i | 0 <= i < |firms|
      ensures exists j :: 0 <= j < |s| && s[j].archetype == firms[i].archetype.value
    {
      var a := firms[i].archetype.value;
      TallyTotals(firms, a);
      TotalsCountsCarrier(firms, a, i);
      var j :| 0 <= j < |t.order| && t.order[j] == a;
      LinesAt(t.order, t.stats, flow, totalEmissions, j);
      assert lines[j] in multiset(s);
      var k :| 0 <= k < |s| && s[k] == lines[j];
    }
  }

  /** A firm that carries archetype `a` is counted in `a`'s totals. */
  lemma {:induction false} TotalsCountsCarrier(firms: seq<FirmRecord>, a: Archetype, i: nat)
    requires i < |firms| && firms[i].archetype == Some(a)
    ensures TotalsOf(firms, a).count >= 1
    decreases |firms|
  {
    var n := |firms| - 1;
    if i < n {
      TotalsCountsCarrier(firms[..n], a, i);
    }
  }

  /** What `findFirmEquilibrium` returns. */
  datatype FirmSimulationResult = FirmSimulationResult(
    carbonPrice: real,
    totalEmissionsReduced: real,
    marketBalance: real,
    totalProfitImpact: real,
    firms: seq<FirmRecord>,
    creditBuyers: nat,
    creditSellers: nat,
    neutralFirms: nat,
    archetypeSummary: seq<ArchetypeSummary>,
    equilibriumFound: bool,
    iterations: nat)

  /** The result `createSimulationResult` builds from the market at `price`:
      buyers, sellers and neutral firms by the ±0.001 band, and the summary. */
  function ResultOf(price: real, m: FirmMarket, found: bool, iterations: nat): FirmSimulationResult
    requires AllSimulated(m.updatedFirms)
  {
    var balances := Column(m.updatedFirms, CreditBalanceOf);
    FirmSimulationResult(price, m.totalEmissionsReduced, m.marketBalance, m.totalProfitImpact, m.updatedFirms,
                         MarketUtils.CountClass(balances, CountThreshold, MarketUtils.Buyer),
                         MarketUtils.CountClass(balances, CountThreshold, MarketUtils.Seller),
                         MarketUtils.CountClass(balances, CountThreshold, MarketUtils.Neutral),
                         Summary(m.updatedFirms, m.totalEmissionsReduced), found, iterations)
  }

  /** Buyers, sellers and neutral firms add up to the number of firms. */
  lemma ResultCountsAddUp(price: real, m: FirmMarket, found: bool, iterations: nat)
    requires AllSimulated(m.updatedFirms)
    ensures var r := ResultOf(price, m, found, iterations);
      r.creditBuyers + r.creditSellers + r.neutralFirms == |m.updatedFirms|
  {
    MarketUtils.CountClassPartition(Column(m.updatedFirms, CreditBalanceOf), CountThreshold);
  }

  /** The participant counts of `createSimulationResult`: buyers are tested
      first (below `-0.001`), then sellers (above `0.001`); with a positive
      threshold that is the market table's classification. */
  method CountParticipants(firms: seq<FirmRecord>) returns (creditBuyers: nat, creditSellers: nat, neutralFirms: nat)
    requires AllSimulated(firms)
    ensures var balances := Column(firms, CreditBalanceOf);
      && creditBuyers == MarketUtils.CountClass(balances, CountThreshold, MarketUtils.Buyer)
      && creditSellers == MarketUtils.CountClass(balances, CountThreshold, MarketUtils.Seller)
      && neutralFirms == MarketUtils.CountClass(balances, CountThreshold, MarketUtils.Neutral)
  {
    creditBuyers, creditSellers, neutralFirms := 0, 0, 0;
    for i := 0 to |firms|
      invariant var balances := Column(firms[..i], CreditBalanceOf);
        && creditBuyers == MarketUtils.CountClass(balances, CountThreshold, MarketUtils.Buyer)
        && creditSellers == MarketUtils.CountClass(balances, CountThreshold, MarketUtils.Seller)
        && neutralFirms == MarketUtils.CountClass(balances, CountThreshold, MarketUtils.Neutral)
    {
      var b := firms[i].creditBalance.value;
      ColumnStep(firms, CreditBalanceOf, i);
      MarketUtils.CountClassSnoc(Column(firms[..i], CreditBalanceOf), b, CountThreshold);
      MarketUtils.ClassifyBands(b, CountThreshold);
      if b < -CountThreshold {
        creditBuyers := creditBuyers + 1;
      } else if b > CountThreshold {
        creditSellers := creditSellers + 1;
      } else {
        neutralFirms := neutralFirms + 1;
      }
    }
    assert firms[..|firms|] == firms;
  }

  /** A prefix one longer adds the next record's entry to the column. */
  lemma ColumnStep(firms: seq<FirmRecord>, field: FirmRecord -> Option<real>, i: nat)
    requires i < |firms|
    ensures Column(firms[..i + 1], field) == Column(firms[..i], field) + [OrZero(field(firms[i]))]
    ensures Column(firms[..i + 1], field)[..i] == Column(firms[..i], field)
  {
    assert firms[..i + 1][..i] == firms[..i];
  }

  /** The aggregation loop of `createSimulationResult`: entries created on
      first sight of an archetype and updated in place. */
  method TallyArchetypes(firms: seq<FirmRecord>) returns (order: seq<Archetype>, stats: map<Archetype, ArchetypeTotals>)
    requires AllSimulated(firms)
    ensures Tally(order, stats) == TallyOf(firms)
  {
    order, stats := [], map[];
    for i := 0 to |firms|
      invariant AllSimulated(firms[..i])
      invariant Tally(order, stats) == TallyOf(firms[..i])
    {
      assert firms[..i + 1][..i] == firms[..i];
      var a := firms[i].archetype.value;
      if a !in stats {
        stats := stats[a := NoTotals];
        order := order + [a];
      }
      var s := stats[a];
      stats := stats[a := ArchetypeTotals(s.count + 1, s.totalCreditBalance + firms[i].creditBalance.value,
                                          s.totalEmissionsReduced + firms[i].emissionsReduced.value,
                                          s.totalProfitChange + firms[i].profitChange.value)];
    }
    assert firms[..|firms|] == firms;
  }

  /** `createSimulationResult`: participant counts, archetype aggregation,
      summary lines and the sort, all over the market at `carbonPrice`. */
  method CreateSimulationResult(carbonPrice: real, result: FirmMarket, equilibriumFound: bool, iterations: nat)
    returns (res: FirmSimulationResult)
    requires AllSimulated(result.updatedFirms)
    ensures res == ResultOf(carbonPrice, result, equilibriumFound, iterations)
  {
    var firms := result.updatedFirms;
    var creditBuyers, creditSellers, neutralFirms := CountParticipants(firms);
    var order, stats := TallyArchetypes(firms);
    var totalAbsCreditFlow := AbsFlow(firms);
    var lines := Lines(order, stats, totalAbsCreditFlow, result.totalEmissionsReduced);
    var archetypeSummary := SortBy(lines, ByCountDescending);
    res := FirmSimulationResult(carbonPrice, result.totalEmissionsReduced, result.marketBalance,
                                result.totalProfitImpact, firms, creditBuyers, creditSellers, neutralFirms,
                                archetypeSummary, equilibriumFound, iterations);
  }

  // ---------------------------------------------------------------------------
  // The equilibrium search
  // ---------------------------------------------------------------------------

  /** Market balance of the cohort at price `P`. */
  function FirmBalance(P: real, firms: seq<FirmRecord>, totals: map<string, real>): real
    requires NonZeroK(firms)
  {
    SimulateFirms(P, firms, totals).marketBalance
  }

  /** The bracket check fails when the balances at both ends of the price
      interval have the same strict sign. */
  predicate FirmBracketFails(firms: seq<FirmRecord>, totals: map<string, real>)
    requires NonZeroK(firms)
  {
    CarbonSimulator.SameStrictSign(FirmBalance(P_MIN, firms, totals), FirmBalance(P_MAX, firms, totals))
  }

  /** While the firm loop's interval is still wider than its tolerance, fewer
      than 37 halvings have happened (2^37 * 1e-6 > 1e5). */
  lemma FirmLoopBound(n: nat)
    requires Halved(P_MAX - P_MIN, n) > FirmTolerance
    ensures n < 37
  {
    HalvingBound(P_MAX - P_MIN, n, FirmTolerance);
    Pow2Values();
    if n >= 37 {
      Pow2Monotone(37, n);
    }
  }

  /** The state of the firm bisection after `n` halvings. */
  predicate FirmSearching(pMin: real, pMax: real, n: nat, price: real, result: FirmMarket,
                          firms: seq<FirmRecord>, totals: map<string, real>)
    requires NonZeroK(firms)
  {
    && P_MIN <= pMin < pMax <= P_MAX
    && pMax - pMin == Halved(P_MAX - P_MIN, n)
    && n <= 37
    && result == SimulateFirms(price, firms, totals)
    && P_MIN <= price <= P_MAX
    && (n > 0 ==> price == pMin || price == pMax)
    && (FirmsMonotone(firms) ==>
          FirmBalance(pMin, firms, totals) <= 0.0 <= FirmBalance(pMax, firms, totals))
  }

  /** A passed bracket check starts the search on the whole interval. */
  lemma FirmSearchStarts(result: FirmMarket, firms: seq<FirmRecord>, totals: map<string, real>)
    requires NonZeroK(firms) && !FirmBracketFails(firms, totals)
    requires result == SimulateFirms((P_MIN + P_MAX) / 2.0, firms, totals)
    ensures FirmSearching(P_MIN, P_MAX, 0, (P_MIN + P_MAX) / 2.0, result, firms, totals)
  {
    if FirmsMonotone(firms) {
      FirmBalanceNonDecreasing(P_MIN, P_MAX, firms, totals);
    }
  }

  /** One halving keeps the search state; it can happen fewer than 37 times. */
  lemma FirmSearchStep(pMin: real, pMax: real, n: nat, price: real, result: FirmMarket, next: FirmMarket,
                       firms: seq<FirmRecord>, totals: map<string, real>)
    requires NonZeroK(firms)
    requires FirmSearching(pMin, pMax, n, price, result, firms, totals) && pMax - pMin > FirmTolerance
    requires next == SimulateFirms((pMin + pMax) / 2.0, firms, totals)
    ensures n < 37
    ensures next.marketBalance > 0.0 ==>
      FirmSearching(pMin, (pMin + pMax) / 2.0, n + 1, (pMin + pMax) / 2.0, next, firms, totals)
    ensures next.marketBalance <= 0.0 ==>
      FirmSearching((pMin + pMax) / 2.0, pMax, n + 1, (pMin + pMax) / 2.0, next, firms, totals)
  {
    FirmLoopBound(n);
  }

  /** A search that ran out of interval without meeting the tolerance ends
      within one tolerance of a sign change of the (monotone) balance. */
  lemma FirmSearchEnds(pMin: real, pMax: real, n: nat, price: real, result: FirmMarket,
                       firms: seq<FirmRecord>, totals: map<string, real>)
    requires NonZeroK(firms)
    requires FirmSearching(pMin, pMax, n, price, result, firms, totals)
    requires pMax - pMin <= FirmTolerance && n > 0 && FirmsMonotone(firms)
    ensures exists lo: real, hi: real ::
      P_MIN <= lo <= price <= hi <= lo + FirmTolerance &&
      FirmBalance(lo, firms, totals) <= 0.0 <= FirmBalance(hi, firms, totals)
  {
    assert P_MIN <= pMin <= price <= pMax <= pMin + FirmTolerance;
  }

  /** `findFirmEquilibrium`: bracket check, bisection, then the summary of the
      market at the final price. */
  method FindFirmEquilibrium(firms: seq<FirmRecord>, sectoral: seq<SectorData> := SECTORAL_DATA) returns (res: FirmSimulationResult)
    requires NonZeroK(firms)
    ensures res == ResultOf(res.carbonPrice, SimulateFirms(res.carbonPrice, firms, SectorTotals(sectoral)),
                           res.equilibriumFound, res.iterations)
    ensures P_MIN <= res.carbonPrice <= P_MAX
    ensures res.iterations <= 37 < FirmMaxIterations
    ensures FirmBracketFails(firms, SectorTotals(sectoral)) <==> res.iterations == 0
    ensures FirmBracketFails(firms, SectorTotals(sectoral)) ==>
      !res.equilibriumFound && res.carbonPrice == (P_MIN + P_MAX) / 2.0
    ensures !FirmBracketFails(firms, SectorTotals(sectoral)) ==>
      (res.equilibriumFound <==> Abs(res.marketBalance) < FirmTolerance)
    ensures FirmsMonotone(firms) && !res.equilibriumFound && res.iterations > 0 ==>
      exists lo: real, hi: real ::
        P_MIN <= lo <= res.carbonPrice <= hi <= lo + FirmTolerance &&
        FirmBalance(lo, firms, SectorTotals(sectoral)) <= 0.0 <= FirmBalance(hi, firms, SectorTotals(sectoral))
  {
    var pMin := P_MIN;
    var pMax := P_MAX;
    var equilibriumPrice := (pMin + pMax) / 2.0;
    var lowResult := SimulateFirmsAtPrice(firms, pMin, sectoral);
    var highResult := SimulateFirmsAtPrice(firms, pMax, sectoral);

    var sameSign := CarbonSimulator.ProductIsPositive(lowResult.marketBalance, highResult.marketBalance);
    if sameSign {
      res := Resimulate(firms, sectoral, equilibriumPrice, false, 0);
      return;
    }

    var equilibriumFound, iterations;
    equilibriumPrice, equilibriumFound, iterations := Bisect(firms, sectoral);
    res := Resimulate(firms, sectoral, equilibriumPrice, equilibriumFound, iterations);
  }

  /** The bisection loop of `findFirmEquilibrium`, entered once the bracket
      check has passed: it halves `[pMin, pMax]` towards the zero of the
      balance, stopping early when a trial balance is within tolerance. */
  method Bisect(firms: seq<FirmRecord>, sectoral: seq<SectorData>) returns (price: real, found: bool, iterations: nat)
    requires NonZeroK(firms) && !FirmBracketFails(firms, SectorTotals(sectoral))
    ensures P_MIN <= price <= P_MAX
    ensures 0 < iterations <= 37
    ensures found <==> Abs(FirmBalance(price, firms, SectorTotals(sectoral))) < FirmTolerance
    ensures FirmsMonotone(firms) && !found ==>
      exists lo: real, hi: real ::
        P_MIN <= lo <= price <= hi <= lo + FirmTolerance &&
        FirmBalance(lo, firms, SectorTotals(sectoral)) <= 0.0 <= FirmBalance(hi, firms, SectorTotals(sectoral))
  {
    ghost var totals := SectorTotals(sectoral);
    var pMin := P_MIN;
    var pMax := P_MAX;
    iterations := 0;
    found := false;
    price := (pMin + pMax) / 2.0;
    var result := SimulateFirmsAtPrice(firms, price, sectoral);

    FirmSearchStarts(result, firms, totals);
    while pMax - pMin > FirmTolerance && iterations < FirmMaxIterations
      invariant FirmSearching(pMin, pMax, iterations, price, result, firms, totals)
      invariant !found
      decreases FirmMaxIterations - iterations
    {
      var pMid := (pMin + pMax) / 2.0;
      var next := SimulateFirmsAtPrice(firms, pMid, sectoral);
      FirmSearchStep(pMin, pMax, iterations, price, result, next, firms, totals);
      result := next;
      price := pMid;
      iterations := iterations + 1;

      if Abs(result.marketBalance) < FirmTolerance {
        found := true;
        break;
      }

      if result.marketBalance > 0.0 {
        pMax := pMid;
      } else {
        pMin := pMid;
      }
    }

    if !found {
      found := Abs(result.marketBalance) < FirmTolerance;
      if !found && FirmsMonotone(firms) {
        FirmSearchEnds(pMin, pMax, iterations, price, result, firms, totals);
      }
    }
  }

  /** The last step of `findFirmEquilibrium`: simulate the cohort once more at
      the chosen price and summarise that market. */
  method Resimulate(firms: seq<FirmRecord>, sectoral: seq<SectorData>, price: real, found: bool, iterations: nat)
    returns (res: FirmSimulationResult)
    requires NonZeroK(firms)
    ensures res == ResultOf(price, SimulateFirms(price, firms, SectorTotals(sectoral)), found, iterations)
  {
    var finalResult := SimulateFirmsAtPrice(firms, price, sectoral);
    res := CreateSimulationResult(price, finalResult, found, iterations);
  }
}
