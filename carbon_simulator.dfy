/** The sector-level equilibrium engine.

    Each sector answers a posted carbon price `P` with its cost-minimising
    emission intensity `eStar`, optionally adjusts its output inside a capacity
    band, and ends up with a signed credit balance (positive: it sells
    certificates, negative: it buys them). `SimulateAtPrice` sums the sectors
    into a market balance; `FindEquilibriumPrice` bisects over the price until
    that balance is within tolerance of zero. */
module CarbonSimulator {
  import opened Common
  import opened Constants

  /** Output elasticity switches: whether output reacts to profitability, how
      strongly (`alpha`) and within which symmetric band (`capacityBand`). */
  datatype SimOptions = SimOptions(enableElasticity: bool, alpha: real, capacityBand: real)

  const DefaultOptions: SimOptions := SimOptions(false, 0.0005, 0.20)

  /** Bisection settings of the sector engine. */
  const Tolerance: real := 0.0001
  const MaxIterations: nat := 200

  /** What one sector does at one price. */
  datatype SectorResult = SectorResult(
    name: string,
    sector: string,
    optimalIntensity: real,
    creditSurplus: real,
    ccc: real,
    emissionsReduced: real,
    profitImpact: real,
    effectiveProduction: real)

  /** The market at one trial price. */
  datatype MarketState = MarketState(
    marketBalance: real,
    totalEmissionsReduced: real,
    totalProfitImpact: real,
    sectorResults: seq<SectorResult>)

  /** The outcome of one equilibrium search. */
  datatype SimulationResult = SimulationResult(
    carbonPrice: real,
    totalEmissionsReduced: real,
    marketBalance: real,
    totalProfitImpact: real,
    sectorResults: seq<SectorResult>,
    equilibriumFound: bool,
    iterations: nat,
    tolerance: real,
    sectors: seq<SectorResult>,
    enableElasticity: bool,
    alpha: real,
    capacityBand: real)

  // ---------------------------------------------------------------------------
  // The response of one sector
  // ---------------------------------------------------------------------------

  /** Optimal intensity `max(0, e0 - P / (2k))`: never negative, never above a
      non-negative baseline at a non-negative price, and the baseline itself at
      price zero. */
  function EStar(e0: real, k: real, P: real): (r: real)
    requires k != 0.0
    ensures r >= 0.0
    ensures e0 >= 0.0 && P >= 0.0 && k > 0.0 ==> r <= e0
    ensures P == 0.0 ==> r == Max(0.0, e0)
  {
    Max(0.0, e0 - P / (2.0 * k))
  }

  /** Per unit of output, choosing intensity `e` costs `k (e0 - e)^2` in
      abatement and `P (e - tau)` in certificates bought (or earns it back when
      negative). */
  function UnitCost(e0: real, k: real, P: real, tau: real, e: real): real
  {
    k * (e0 - e) * (e0 - e) + P * (e - tau)
  }

  /** `eStar` is the closed-form minimiser of that cost over all non-negative
      intensities. */
  lemma EStarMinimisesUnitCost(e0: real, k: real, P: real, tau: real, e: real)
    requires k > 0.0 && e >= 0.0
    ensures UnitCost(e0, k, P, tau, EStar(e0, k, P)) <= UnitCost(e0, k, P, tau, e)
  {
    var s := EStar(e0, k, P);
    var g := P - 2.0 * k * (e0 - s);
    assert UnitCost(e0, k, P, tau, e) - UnitCost(e0, k, P, tau, s)
        == k * (e - s) * (e - s) + (e - s) * g;
    MulNonNegative(k, (e - s) * (e - s));
    assert k * (e - s) * (e - s) >= 0.0;
    if e0 - P / (2.0 * k) >= 0.0 {
      assert 2.0 * k * (P / (2.0 * k)) == P;
      assert g == 0.0;
    } else {
      assert s == 0.0;
      assert P > 2.0 * k * e0 by {
        MulPositive(2.0 * k, P / (2.0 * k) - e0);
        assert 2.0 * k * (P / (2.0 * k)) == P;
      }
      MulNonNegative(e, g);
    }
  }

  /** `eStar` does not increase with the price. */
  lemma EStarAntitone(e0: real, k: real, P1: real, P2: real)
    requires k > 0.0 && P1 <= P2
    ensures EStar(e0, k, P2) <= EStar(e0, k, P1)
  {
    assert P1 / (2.0 * k) <= P2 / (2.0 * k) by {
      MulNonNegative(P2 - P1, 1.0 / (2.0 * k));
      assert P2 / (2.0 * k) - P1 / (2.0 * k) == (P2 - P1) * (1.0 / (2.0 * k));
    }
  }

  /** The marginal net profit signal that nudges output: the unit margin
      `p - v` alone at price zero, and no less than it when the chosen intensity
      is below both the target and the baseline at a non-negative price. */
  function Mnp(p: real, v: real, P: real, eS: real, tau: real, e0: real): (r: real)
    ensures P == 0.0 ==> r == p - v
    ensures P >= 0.0 && eS <= tau && eS <= e0 ==> r >= p - v
  {
    (p - v) - P * (eS - tau) + P * (e0 - eS)
  }

  /** `Math.min(hi, Math.max(lo, x))`: inside `[lo, hi]` whenever that interval
      is non-empty, `x` itself when `x` is already inside, and the bound it
      crosses otherwise. */
  function Clamp(x: real, lo: real, hi: real): (r: real)
    ensures lo <= hi ==> lo <= r <= hi
    ensures lo <= x <= hi ==> r == x
    ensures x < lo <= hi ==> r == lo
    ensures lo <= hi < x ==> r == hi
    ensures hi < lo ==> r == hi
  {
    Min(hi, Max(lo, x))
  }

  /** Clamping to a fixed interval keeps the order of its arguments. */
  lemma ClampMonotone(x1: real, x2: real, lo: real, hi: real)
    requires x1 <= x2
    ensures Clamp(x1, lo, hi) <= Clamp(x2, lo, hi)
  {
  }

  /** The band `[(1 - b) Q0, (1 + b) Q0]` contains `Q0` when `b` and `Q0` are
      non-negative. */
  lemma BandContainsBaseline(q0: real, b: real)
    requires q0 >= 0.0 && b >= 0.0
    ensures (1.0 - b) * q0 <= q0 <= (1.0 + b) * q0
  {
    MulNonNegative(b, q0);
  }

  /** The baseline `q0` moved by `alpha` times a profit signal and clamped to
      the band `[(1 - b) q0, (1 + b) q0]`: inside the band, and `q0` itself when
      `alpha` is 0. */
  function ElasticOutput(q0: real, alpha: real, b: real, signal: real): (q: real)
    ensures b >= 0.0 && q0 >= 0.0 ==> (1.0 - b) * q0 <= q <= (1.0 + b) * q0
    ensures alpha == 0.0 && b >= 0.0 && q0 >= 0.0 ==> q == q0
  {
    var trial := q0 + alpha * signal;
    if b >= 0.0 && q0 >= 0.0 then
      BandContainsBaseline(q0, b);
      Clamp(trial, (1.0 - b) * q0, (1.0 + b) * q0)
    else
      Clamp(trial, (1.0 - b) * q0, (1.0 + b) * q0)
  }

  /** With a non-negative `alpha`, a stronger signal never lowers the output. */
  lemma ElasticOutputMonotone(q0: real, alpha: real, b: real, signal1: real, signal2: real)
    requires alpha >= 0.0 && signal1 <= signal2
    ensures ElasticOutput(q0, alpha, b, signal1) <= ElasticOutput(q0, alpha, b, signal2)
  {
    MulMonotone(signal1, signal2, alpha);
    assert alpha * signal1 <= alpha * signal2;
    ClampMonotone(q0 + alpha * signal1, q0 + alpha * signal2, (1.0 - b) * q0, (1.0 + b) * q0);
  }

  /** Output at price `P`: the baseline without elasticity, otherwise the
      baseline moved by `alpha` times the profit signal and clamped to the band. */
  function EffectiveProduction(s: SectorData, c: CostData, P: real, opts: SimOptions, eS: real): (q: real)
    ensures !opts.enableElasticity ==> q == s.production
    ensures opts.enableElasticity && opts.capacityBand >= 0.0 && s.production >= 0.0 ==>
      (1.0 - opts.capacityBand) * s.production <= q <= (1.0 + opts.capacityBand) * s.production
    ensures opts.enableElasticity && opts.alpha == 0.0 && opts.capacityBand >= 0.0 && s.production >= 0.0 ==>
      q == s.production
  {
    if !opts.enableElasticity then s.production
    else ElasticOutput(s.production, opts.alpha, opts.capacityBand, Mnp(c.price, c.variableCost, P, eS, s.target, s.intensity))
  }

  /** With a non-negative `alpha`, a higher product price never lowers the
      output chosen at the same certificate price and intensity. */
  lemma OutputRisesWithProductPrice(s: SectorData, c: CostData, P: real, opts: SimOptions, eS: real, price2: real)
    requires opts.alpha >= 0.0 && c.price <= price2
    ensures EffectiveProduction(s, c, P, opts, eS) <= EffectiveProduction(s, c.(price := price2), P, opts, eS)
  {
    if opts.enableElasticity {
      MarginShift(c.price, price2, c.variableCost, P, eS, s.target, s.intensity);
      ElasticOutputMonotone(s.production, opts.alpha, opts.capacityBand,
        Mnp(c.price, c.variableCost, P, eS, s.target, s.intensity),
        Mnp(price2, c.variableCost, P, eS, s.target, s.intensity));
    }
  }

  /** Raising the product price raises the profit signal by the same amount. */
  lemma MarginShift(p1: real, p2: real, v: real, P: real, eS: real, tau: real, e0: real)
    ensures Mnp(p2, v, P, eS, tau, e0) == Mnp(p1, v, P, eS, tau, e0) + (p2 - p1)
  {
  }

  /** Credits a sector holds over (positive) or lacks under (negative) its
      target when producing `q` at intensity `e` against target `tau`. */
  function CreditBalance(q: real, tau: real, e: real): real
  {
    q * (tau - e)
  }

  /** Every quantity one sector computes at one price. */
  datatype Response = Response(
    optimalIntensity: real,
    effectiveProduction: real,
    ccc: real,
    emissionsReduced: real,
    abatementCost: real,
    carbonCost: real,
    carbonRevenue: real,
    profitChange: real)

  /** The response of sector `s` (with cost row `c`) to price `P`. */
  function Respond(s: SectorData, c: CostData, P: real, opts: SimOptions): (r: Response)
    requires c.k != 0.0
    ensures r.optimalIntensity >= 0.0
    ensures !opts.enableElasticity ==> r.effectiveProduction == s.production
    ensures r.carbonCost == 0.0 || r.carbonRevenue == 0.0
  {
    var e0 := s.intensity;
    var tau := s.target;
    var eS := EStar(e0, c.k, P);
    var qEff := EffectiveProduction(s, c, P, opts, eS);
    var ccc := CreditBalance(qEff, tau, eS);
    var abate := (e0 - eS) * qEff;
    var reduction := Max(0.0, e0 - eS);
    var abateCst := c.k * qEff * reduction * reduction;
    var carbCost := if ccc < 0.0 then -ccc * P else 0.0;
    var carbRev := if ccc > 0.0 then ccc * P else 0.0;
    var dProfit := -abateCst - carbCost + carbRev;
    Response(eS, qEff, ccc, abate, abateCst, carbCost, carbRev, dProfit)
  }

  /** What a sector's response guarantees: non-negative abatement cost and
      emission reduction (for sane inputs), never both a certificate cost and a
      certificate revenue, and a profit change equal to the certificate value of
      the balance minus the abatement cost, hence zero at price zero. */
  lemma RespondProperties(s: SectorData, c: CostData, P: real, opts: SimOptions)
    requires c.k != 0.0
    ensures var r := Respond(s, c, P, opts);
      && r.optimalIntensity == EStar(s.intensity, c.k, P)
      && r.effectiveProduction == EffectiveProduction(s, c, P, opts, r.optimalIntensity)
      && r.ccc == CreditBalance(r.effectiveProduction, s.target, r.optimalIntensity)
      && (c.k > 0.0 && r.effectiveProduction >= 0.0 ==> r.abatementCost >= 0.0)
      && (s.intensity >= 0.0 && r.effectiveProduction >= 0.0 && c.k > 0.0 && P >= 0.0 ==>
            r.emissionsReduced >= 0.0)
      && (r.carbonCost == 0.0 || r.carbonRevenue == 0.0)
      && (P >= 0.0 ==> r.carbonCost >= 0.0 && r.carbonRevenue >= 0.0)
      && r.profitChange == -r.abatementCost + P * r.ccc
      && (P == 0.0 ==> r.abatementCost == 0.0 && r.profitChange == 0.0)
  {
    var e0 := s.intensity;
    var eS := EStar(e0, c.k, P);
    var qEff := EffectiveProduction(s, c, P, opts, eS);
    var reduction := Max(0.0, e0 - eS);
    ResponseFacts(e0, c.k, P, qEff, eS, reduction, qEff * (s.target - eS), (e0 - eS) * qEff);
  }

  /** The value at price `P` of a credit balance: revenue when positive, cost
      when negative. */
  function CreditValue(P: real, balance: real): real
  {
    P * balance
  }

  /** The profit change of one sector is the certificate value of its balance
      minus its abatement cost. */
  lemma RespondProfit(s: SectorData, c: CostData, P: real, opts: SimOptions)
    requires c.k != 0.0
    ensures Respond(s, c, P, opts).profitChange == CreditValue(P, Respond(s, c, P, opts).ccc) - Respond(s, c, P, opts).abatementCost
  {
    RespondProperties(s, c, P, opts);
  }

  /** The sign facts behind `Respond`'s contract. */
  lemma ResponseFacts(e0: real, k: real, P: real, qEff: real, eS: real, reduction: real, ccc: real, abate: real)
    requires k != 0.0 && eS == EStar(e0, k, P) && reduction == Max(0.0, e0 - eS)
    requires abate == (e0 - eS) * qEff
    ensures k > 0.0 && qEff >= 0.0 ==> k * qEff * reduction * reduction >= 0.0
    ensures e0 >= 0.0 && qEff >= 0.0 && k > 0.0 && P >= 0.0 ==> abate >= 0.0
    ensures P == 0.0 ==> reduction == 0.0
    ensures P >= 0.0 ==> (if ccc < 0.0 then -ccc * P else 0.0) >= 0.0 && (if ccc > 0.0 then ccc * P else 0.0) >= 0.0
    ensures (if ccc > 0.0 then ccc * P else 0.0) - (if ccc < 0.0 then -ccc * P else 0.0) == P * ccc
  {
    if k > 0.0 && qEff >= 0.0 {
      MulNonNegative(k, qEff);
      MulNonNegative(k * qEff, reduction);
      MulNonNegative(k * qEff * reduction, reduction);
    }
    if e0 >= 0.0 && qEff >= 0.0 && k > 0.0 && P >= 0.0 {
      MulNonNegative(e0 - eS, qEff);
    }
    if P >= 0.0 {
      if ccc < 0.0 { MulNonNegative(-ccc, P); }
      if ccc > 0.0 { MulNonNegative(ccc, P); }
    }
  }

  /** The reported record of one sector. */
  function ToSectorResult(s: SectorData, r: Response): SectorResult
  {
    SectorResult(s.name, s.name, r.optimalIntensity, r.ccc, r.ccc, r.emissionsReduced,
                 r.profitChange, r.effectiveProduction)
  }

  // ---------------------------------------------------------------------------
  // The market at one price
  // ---------------------------------------------------------------------------

  /** The cost rows the engine reads: one per sector, paired by position, each
      with a non-zero abatement coefficient (the engine divides by it). */
  predicate Compatible(sectoral: seq<SectorData>, cost: seq<CostData>)
  {
    |sectoral| <= |cost| && forall i :: 0 <= i < |sectoral| ==> cost[i].k != 0.0
  }

  /** The market made of the given sectors at price `P`: the totals and the
      reports accumulated sector by sector in input order, exactly as the
      engine's loop accumulates them. */
  function Evaluate(P: real, sectoral: seq<SectorData>, cost: seq<CostData>, opts: SimOptions): (m: MarketState)
    requires Compatible(sectoral, cost)
    ensures |m.sectorResults| == |sectoral|
    decreases |sectoral|
  {
    if sectoral == [] then MarketState(0.0, 0.0, 0.0, [])
    else
      var n := |sectoral| - 1;
      var m := Evaluate(P, sectoral[..n], cost, opts);
      var r := Respond(sectoral[n], cost[n], P, opts);
      MarketState(m.marketBalance + r.ccc, m.totalEmissionsReduced + r.emissionsReduced,
                  m.totalProfitImpact + r.profitChange, m.sectorResults + [ToSectorResult(sectoral[n], r)])
  }

  /** Aggregate credit balance at price `P`. */
  function MarketBalance(P: real, sectoral: seq<SectorData>, cost: seq<CostData>, opts: SimOptions): real
    requires Compatible(sectoral, cost)
  {
    Evaluate(P, sectoral, cost, opts).marketBalance
  }

  /** Total abatement cost of the given sectors at price `P`. */
  function TotalAbatementCost(P: real, sectoral: seq<SectorData>, cost: seq<CostData>, opts: SimOptions): real
    requires Compatible(sectoral, cost)
    decreases |sectoral|
  {
    if sectoral == [] then 0.0
    else
      var n := |sectoral| - 1;
      TotalAbatementCost(P, sectoral[..n], cost, opts) + Respond(sectoral[n], cost[n], P, opts).abatementCost
  }

  /** Evaluating one more sector extends the market by that sector. */
  lemma EvaluateStep(P: real, sectoral: seq<SectorData>, cost: seq<CostData>, opts: SimOptions, i: nat)
    requires Compatible(sectoral, cost) && i < |sectoral|
    ensures var m, r := Evaluate(P, sectoral[..i], cost, opts), Respond(sectoral[i], cost[i], P, opts);
      Evaluate(P, sectoral[..i + 1], cost, opts)
        == MarketState(m.marketBalance + r.ccc, m.totalEmissionsReduced + r.emissionsReduced,
                       m.totalProfitImpact + r.profitChange, m.sectorResults + [ToSectorResult(sectoral[i], r)])
  {
    assert sectoral[..i + 1][..i] == sectoral[..i];
  }

  /** `simulateAtPrice`: one pass over the sectors, accumulating the three
      totals and collecting one report per sector. */
  method SimulateAtPrice(P: real, sectoral: seq<SectorData>, cost: seq<CostData>, opts: SimOptions)
    returns (m: MarketState)
    requires Compatible(sectoral, cost)
    ensures m == Evaluate(P, sectoral, cost, opts)
  {
    var totalAbate := 0.0;
    var marketBal := 0.0;
    var profitSum := 0.0;
    var sectors: seq<SectorResult> := [];
    for i := 0 to |sectoral|
      invariant MarketState(marketBal, totalAbate, profitSum, sectors) == Evaluate(P, sectoral[..i], cost, opts)
    {
      var r := Respond(sectoral[i], cost[i], P, opts);
      EvaluateStep(P, sectoral, cost, opts, i);
      sectors := sectors + [ToSectorResult(sectoral[i], r)];
      totalAbate := totalAbate + r.emissionsReduced;
      marketBal := marketBal + r.ccc;
      profitSum := profitSum + r.profitChange;
    }
    assert sectoral[..|sectoral|] == sectoral;
    m := MarketState(marketBal, totalAbate, profitSum, sectors);
  }

  // ---------------------------------------------------------------------------
  // Properties of the market at one price
  // ---------------------------------------------------------------------------

  /** One report per sector, in input order: report `i` is sector `i`'s
      response to the price, under the sector's own name. */
  lemma {:induction false} EvaluateReportsEachSector(P: real, sectoral: seq<SectorData>, cost: seq<CostData>, opts: SimOptions, i: nat)
    requires Compatible(sectoral, cost) && i < |sectoral|
    ensures Evaluate(P, sectoral, cost, opts).sectorResults[i]
         == ToSectorResult(sectoral[i], Respond(sectoral[i], cost[i], P, opts))
    ensures Evaluate(P, sectoral, cost, opts).sectorResults[i].name == sectoral[i].name
    decreases |sectoral|
  {
    var n := |sectoral| - 1;
    if i < n {
      EvaluateReportsEachSector(P, sectoral[..n], cost, opts, i);
    }
  }

  /** The arithmetic of one step of `ProfitDecomposes`. */
  lemma ProfitStep(P: real, bal: real, ccc: real, cost: real, abate: real, profit: real, change: real,
                   bal': real, cost': real, profit': real)
    requires profit == CreditValue(P, bal) - cost && change == CreditValue(P, ccc) - abate
    requires bal' == bal + ccc && cost' == cost + abate && profit' == profit + change
    ensures profit' == CreditValue(P, bal') - cost'
  {
    Distribute(P, bal, ccc);
  }

  /** Total profit change is the certificate value of the market balance minus
      the total abatement cost. */
  lemma {:induction false} ProfitDecomposes(P: real, sectoral: seq<SectorData>, cost: seq<CostData>, opts: SimOptions)
    requires Compatible(sectoral, cost)
    ensures Evaluate(P, sectoral, cost, opts).totalProfitImpact
         == CreditValue(P, MarketBalance(P, sectoral, cost, opts)) - TotalAbatementCost(P, sectoral, cost, opts)
    decreases |sectoral|
  {
    if sectoral != [] {
      var n := |sectoral| - 1;
      ProfitDecomposes(P, sectoral[..n], cost, opts);
      RespondProfit(sectoral[n], cost[n], P, opts);
      ProfitStep(P, MarketBalance(P, sectoral[..n], cost, opts), Respond(sectoral[n], cost[n], P, opts).ccc,
                 TotalAbatementCost(P, sectoral[..n], cost, opts), Respond(sectoral[n], cost[n], P, opts).abatementCost,
                 Evaluate(P, sectoral[..n], cost, opts).totalProfitImpact, Respond(sectoral[n], cost[n], P, opts).profitChange,
                 MarketBalance(P, sectoral, cost, opts), TotalAbatementCost(P, sectoral, cost, opts),
                 Evaluate(P, sectoral, cost, opts).totalProfitImpact);
    }
  }

  /** At price zero nobody abates, so total profit change is zero. */
  lemma {:induction false} NoProfitChangeAtZeroPrice(sectoral: seq<SectorData>, cost: seq<CostData>, opts: SimOptions)
    requires Compatible(sectoral, cost)
    ensures Evaluate(0.0, sectoral, cost, opts).totalProfitImpact == 0.0
    ensures TotalAbatementCost(0.0, sectoral, cost, opts) == 0.0
    decreases |sectoral|
  {
    if sectoral != [] {
      var n := |sectoral| - 1;
      NoProfitChangeAtZeroPrice(sectoral[..n], cost, opts);
      RespondProperties(sectoral[n], cost[n], 0.0, opts);
    }
  }

  /** The hypotheses under which the market balance moves with the price:
      fixed output, non-negative baselines, positive abatement coefficients. */
  predicate Monotone(sectoral: seq<SectorData>, cost: seq<CostData>, opts: SimOptions)
  {
    !opts.enableElasticity && |sectoral| <= |cost| &&
    forall i :: 0 <= i < |sectoral| ==> sectoral[i].production >= 0.0 && cost[i].k > 0.0
  }

  /** With output fixed, a sector's balance is its baseline output times the
      gap between target and optimal intensity. */
  lemma RespondCccFixedOutput(s: SectorData, c: CostData, P: real, opts: SimOptions)
    requires c.k != 0.0 && !opts.enableElasticity
    ensures Respond(s, c, P, opts).ccc == CreditBalance(s.production, s.target, EStar(s.intensity, c.k, P))
  {
  }

  /** At a fixed output `q >= 0`, the balance `q (tau - eStar)` does not fall as
      the price rises. */
  lemma FixedOutputBalanceMonotone(e0: real, k: real, tau: real, q: real, P1: real, P2: real)
    requires k > 0.0 && q >= 0.0 && P1 <= P2
    ensures CreditBalance(q, tau, EStar(e0, k, P1)) <= CreditBalance(q, tau, EStar(e0, k, P2))
  {
    EStarAntitone(e0, k, P1, P2);
    MulMonotone(tau - EStar(e0, k, P1), tau - EStar(e0, k, P2), q);
  }

  /** With output fixed, a sector's balance `Q0 (tau - eStar)` does not fall
      as the price rises. */
  lemma RespondCccMonotone(s: SectorData, c: CostData, P1: real, P2: real, opts: SimOptions)
    requires !opts.enableElasticity && s.production >= 0.0 && c.k > 0.0 && P1 <= P2
    ensures Respond(s, c, P1, opts).ccc <= Respond(s, c, P2, opts).ccc
  {
    RespondCccFixedOutput(s, c, P1, opts);
    RespondCccFixedOutput(s, c, P2, opts);
    FixedOutputBalanceMonotone(s.intensity, c.k, s.target, s.production, P1, P2);
  }

  /** With output fixed, the market balance does not fall as the price rises. */
  lemma {:induction false} BalanceNonDecreasing(P1: real, P2: real, sectoral: seq<SectorData>, cost: seq<CostData>, opts: SimOptions)
    requires Monotone(sectoral, cost, opts) && P1 <= P2
    ensures Compatible(sectoral, cost)
    ensures MarketBalance(P1, sectoral, cost, opts) <= MarketBalance(P2, sectoral, cost, opts)
    decreases |sectoral|
  {
    if sectoral != [] {
      var n := |sectoral| - 1;
      BalanceNonDecreasing(P1, P2, sectoral[..n], cost, opts);
      RespondCccMonotone(sectoral[n], cost[n], P1, P2, opts);
    }
  }

  /** With `alpha = 0` a sector's response does not depend on the elasticity switch. */
  lemma RespondZeroAlpha(s: SectorData, c: CostData, P: real, b: real)
    requires c.k != 0.0 && b >= 0.0 && s.production >= 0.0
    ensures Respond(s, c, P, SimOptions(true, 0.0, b)) == Respond(s, c, P, SimOptions(false, 0.0, b))
  {
  }

  /** With `alpha = 0` (and a sane band), switching elasticity on changes
      nothing: every sector keeps its baseline output. */
  lemma {:induction false} ZeroAlphaMatchesNoElasticity(P: real, sectoral: seq<SectorData>, cost: seq<CostData>, b: real)
    requires Compatible(sectoral, cost) && b >= 0.0
    requires forall i :: 0 <= i < |sectoral| ==> sectoral[i].production >= 0.0
    ensures Evaluate(P, sectoral, cost, SimOptions(true, 0.0, b))
         == Evaluate(P, sectoral, cost, SimOptions(false, 0.0, b))
    decreases |sectoral|
  {
    if sectoral != [] {
      var n := |sectoral| - 1;
      ZeroAlphaMatchesNoElasticity(P, sectoral[..n], cost, b);
      RespondZeroAlpha(sectoral[n], cost[n], P, b);
    }
  }

  // ---------------------------------------------------------------------------
  // The equilibrium search
  // ---------------------------------------------------------------------------

  /** Two numbers whose product is positive: both positive or both negative. */
  predicate SameStrictSign(a: real, b: real)
  {
    (a > 0.0 && b > 0.0) || (a < 0.0 && b < 0.0)
  }

  /** The test `a * b > 0` the bracket check performs. */
  method ProductIsPositive(a: real, b: real) returns (r: bool)
    ensures r <==> SameStrictSign(a, b)
  {
    r := a * b > 0.0;
    if a > 0.0 && b > 0.0 {
      MulPositive(a, b);
    } else if a < 0.0 && b < 0.0 {
      MulPositive(-a, -b);
    } else if a >= 0.0 && b <= 0.0 {
      MulNonNegative(a, -b);
    } else {
      MulNonNegative(-a, b);
    }
  }

  /** The bracket check fails when the balances at both ends of the price
      interval have the same strict sign. */
  predicate BracketFails(sectoral: seq<SectorData>, cost: seq<CostData>, opts: SimOptions)
    requires Compatible(sectoral, cost)
  {
    SameStrictSign(MarketBalance(P_MIN, sectoral, cost, opts), MarketBalance(P_MAX, sectoral, cost, opts))
  }

  /** When the balance rises with the price, a passed bracket check means the
      balance changes sign (or vanishes) between the ends. */
  lemma BracketOrdered(sectoral: seq<SectorData>, cost: seq<CostData>, opts: SimOptions)
    requires Monotone(sectoral, cost, opts)
    ensures Compatible(sectoral, cost)
    ensures !BracketFails(sectoral, cost, opts) ==>
      MarketBalance(P_MIN, sectoral, cost, opts) <= 0.0 <= MarketBalance(P_MAX, sectoral, cost, opts)
  {
    BalanceNonDecreasing(P_MIN, P_MAX, sectoral, cost, opts);
  }

  /** While the sector loop's interval is still wider than its tolerance,
      fewer than 30 halvings have happened (2^30 * 1e-4 > 1e5). */
  lemma SectorLoopBound(n: nat)
    requires Halved(P_MAX - P_MIN, n) > Tolerance
    ensures n < 30
  {
    HalvingBound(P_MAX - P_MIN, n, Tolerance);
    Pow2Values();
    if n >= 30 {
      Pow2Monotone(30, n);
    }
  }

  /** The state of the bisection after `n` halvings: `[pMin, pMax]` is the
      current interval, `price` the last trial price and `result` the market at
      it; when the balance rises with the price, the interval brackets the
      zero of the balance. */
  predicate Searching(pMin: real, pMax: real, n: nat, price: real, result: MarketState,
                      sectoral: seq<SectorData>, cost: seq<CostData>, opts: SimOptions)
    requires Compatible(sectoral, cost)
  {
    && P_MIN <= pMin < pMax <= P_MAX
    && pMax - pMin == Halved(P_MAX - P_MIN, n)
    && n <= 30
    && result == Evaluate(price, sectoral, cost, opts)
    && P_MIN <= price <= P_MAX
    && (n > 0 ==> price == pMin || price == pMax)
    && (Monotone(sectoral, cost, opts) ==>
          MarketBalance(pMin, sectoral, cost, opts) <= 0.0 <= MarketBalance(pMax, sectoral, cost, opts))
  }

  /** A passed bracket check starts the search on the whole price interval. */
  lemma SearchStarts(result: MarketState, sectoral: seq<SectorData>, cost: seq<CostData>, opts: SimOptions)
    requires Compatible(sectoral, cost) && !BracketFails(sectoral, cost, opts)
    requires result == Evaluate((P_MIN + P_MAX) / 2.0, sectoral, cost, opts)
    ensures Searching(P_MIN, P_MAX, 0, (P_MIN + P_MAX) / 2.0, result, sectoral, cost, opts)
  {
    if Monotone(sectoral, cost, opts) {
      BracketOrdered(sectoral, cost, opts);
    }
  }

  /** One halving keeps the search state, on the half whose end balances keep
      their signs; it can only happen fewer than 30 times. */
  lemma SearchStep(pMin: real, pMax: real, n: nat, price: real, result: MarketState, next: MarketState,
                   sectoral: seq<SectorData>, cost: seq<CostData>, opts: SimOptions)
    requires Compatible(sectoral, cost)
    requires Searching(pMin, pMax, n, price, result, sectoral, cost, opts) && pMax - pMin > Tolerance
    requires next == Evaluate((pMin + pMax) / 2.0, sectoral, cost, opts)
    ensures n < 30
    ensures next.marketBalance > 0.0 ==>
      Searching(pMin, (pMin + pMax) / 2.0, n + 1, (pMin + pMax) / 2.0, next, sectoral, cost, opts)
    ensures next.marketBalance <= 0.0 ==>
      Searching((pMin + pMax) / 2.0, pMax, n + 1, (pMin + pMax) / 2.0, next, sectoral, cost, opts)
  {
    SectorLoopBound(n);
  }

  /** A search that ran out of interval without meeting the tolerance ends
      within one tolerance of a sign change of the (monotone) balance. */
  lemma SearchEnds(pMin: real, pMax: real, n: nat, price: real, result: MarketState,
                   sectoral: seq<SectorData>, cost: seq<CostData>, opts: SimOptions)
    requires Compatible(sectoral, cost)
    requires Searching(pMin, pMax, n, price, result, sectoral, cost, opts)
    requires pMax - pMin <= Tolerance && n > 0 && Monotone(sectoral, cost, opts)
    ensures exists lo: real, hi: real ::
      P_MIN <= lo <= price <= hi <= lo + Tolerance &&
      MarketBalance(lo, sectoral, cost, opts) <= 0.0 <= MarketBalance(hi, sectoral, cost, opts)
  {
    assert P_MIN <= pMin <= price <= pMax <= pMin + Tolerance;
  }

  /** The search result built from the market at `price`. */
  function Outcome(price: real, m: MarketState, found: bool, iterations: nat, opts: SimOptions): SimulationResult
  {
    SimulationResult(price, m.totalEmissionsReduced, m.marketBalance, m.totalProfitImpact,
                     m.sectorResults, found, iterations, Tolerance, m.sectorResults,
                     opts.enableElasticity, opts.alpha, opts.capacityBand)
  }

  /** `findEquilibriumPrice`: bracket check, then bisection. */
  method FindEquilibriumPrice(sectoralData: seq<SectorData>, costData: seq<CostData>, opts: SimOptions := DefaultOptions)
    returns (res: SimulationResult)
    requires Compatible(sectoralData, costData)
    ensures res == Outcome(res.carbonPrice, Evaluate(res.carbonPrice, sectoralData, costData, opts),
                           res.equilibriumFound, res.iterations, opts)
    ensures P_MIN <= res.carbonPrice <= P_MAX
    ensures res.iterations <= 30 < MaxIterations
    ensures BracketFails(sectoralData, costData, opts) <==> res.iterations == 0
    ensures BracketFails(sectoralData, costData, opts) ==>
      !res.equilibriumFound && res.carbonPrice == (P_MIN + P_MAX) / 2.0
    ensures !BracketFails(sectoralData, costData, opts) ==>
      (res.equilibriumFound <==> Abs(res.marketBalance) < Tolerance)
    ensures Monotone(sectoralData, costData, opts) && !res.equilibriumFound && res.iterations > 0 ==>
      exists lo: real, hi: real ::
        P_MIN <= lo <= res.carbonPrice <= hi <= lo + Tolerance &&
        MarketBalance(lo, sectoralData, costData, opts) <= 0.0 <= MarketBalance(hi, sectoralData, costData, opts)
  {
    var pMin := P_MIN;
    var pMax := P_MAX;
    var iterations: nat := 0;
    var equilibriumFound := false;
    var equilibriumPrice := (pMin + pMax) / 2.0;
    var result := SimulateAtPrice(equilibriumPrice, sectoralData, costData, opts);

    var lowResult := SimulateAtPrice(pMin, sectoralData, costData, opts);
    var highResult := SimulateAtPrice(pMax, sectoralData, costData, opts);

    var sameSign := ProductIsPositive(lowResult.marketBalance, highResult.marketBalance);
    if sameSign {
      return Outcome(equilibriumPrice, result, false, iterations, opts);
    }

    SearchStarts(result, sectoralData, costData, opts);
    while pMax - pMin > Tolerance && iterations < MaxIterations
      invariant Searching(pMin, pMax, iterations, equilibriumPrice, result, sectoralData, costData, opts)
      invariant !equilibriumFound
      decreases MaxIterations - iterations
    {
      var pMid := (pMin + pMax) / 2.0;
      var next := SimulateAtPrice(pMid, sectoralData, costData, opts);
      SearchStep(pMin, pMax, iterations, equilibriumPrice, result, next, sectoralData, costData, opts);
      result := next;
      equilibriumPrice := pMid;
      iterations := iterations + 1;

      if Abs(result.marketBalance) < Tolerance {
        equilibriumFound := true;
        break;
      }

      if result.marketBalance > 0.0 {
        pMax := pMid;
      } else {
        pMin := pMid;
      }
    }

    if !equilibriumFound {
      equilibriumFound := Abs(result.marketBalance) < Tolerance;
      if !equilibriumFound && iterations > 0 && Monotone(sectoralData, costData, opts) {
        SearchEnds(pMin, pMax, iterations, equilibriumPrice, result, sectoralData, costData, opts);
      }
    }

    res := Outcome(equilibriumPrice, result, equilibriumFound, iterations, opts);
  }
}
