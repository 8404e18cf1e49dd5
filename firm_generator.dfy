/** The synthetic firm cohort: every sector of the table is split into its
    number of companies, each company's figures are the sector's figures
    jittered by draws from a seeded generator, and each firm is tagged with a
    behavioural archetype by a first-match rule chain. */
module FirmGenerator {
  import opened Common
  import opened Constants
  import opened SeededRandom

  /** One synthetic company. */
  datatype SyntheticFirm = SyntheticFirm(
    id: string,
    sector: string,
    sectorIndex: nat,
    production: real,
    baseIntensity: real,
    target: real,
    price: real,
    variableCost: real,
    fixedCost: real,
    k: real,
    alpha: real,
    capMin: real,
    capMax: real)

  // ---------------------------------------------------------------------------
  // Company counts
  // ---------------------------------------------------------------------------

  /** Number of companies per sector name. */
  const SECTOR_COMPANY_COUNTS: map<string, nat> := map[
    "Steel" := 253,
    "Cement" := 186,
    "Textile" := 165,
    "Paper & Pulp" := 114,
    "Chlor Alkali" := 30,
    "Fertiliser" := 21,
    "Aluminium" := 13,
    "Petroleum Refining" := 23,
    "Petrochemicals" := 11]

  /** `counts[name] || 1`: an unknown name, or a zero count, becomes a single
      company. */
  function CompanyCount(counts: map<string, nat>, name: string): (n: nat)
    ensures n >= 1
    ensures name in counts && counts[name] > 0 ==> n == counts[name]
    ensures name !in counts ==> n == 1
  {
    if name in counts && counts[name] != 0 then counts[name] else 1
  }

  /** Number of firms the cohort of `sectoral` holds. */
  function TotalCompanies(counts: map<string, nat>, sectoral: seq<SectorData>): nat
    decreases |sectoral|
  {
    if sectoral == [] then 0
    else TotalCompanies(counts, sectoral[..|sectoral| - 1]) + CompanyCount(counts, sectoral[|sectoral| - 1].name)
  }

  /** With the shipped sector table the cohort has 816 firms. */
  lemma ShippedCohortSize()
    ensures TotalCompanies(SECTOR_COMPANY_COUNTS, SECTORAL_DATA) == 816
  {
    var t := SECTORAL_DATA;
    var c := SECTOR_COMPANY_COUNTS;
    assert t[..0] == [];
    assert t[..1][..0] == t[..0];
    assert t[..2][..1] == t[..1];
    assert t[..3][..2] == t[..2];
    assert t[..4][..3] == t[..3];
    assert t[..5][..4] == t[..4];
    assert t[..6][..5] == t[..5];
    assert t[..7][..6] == t[..6];
    assert t[..8][..7] == t[..7];
    assert t[..9][..8] == t[..8];
    assert t[..9] == t;
    assert TotalCompanies(c, t[..1]) == 253;
    assert TotalCompanies(c, t[..2]) == 266;
    assert TotalCompanies(c, t[..3]) == 452;
    assert TotalCompanies(c, t[..4]) == 473;
    assert TotalCompanies(c, t[..5]) == 638;
    assert TotalCompanies(c, t[..6]) == 752;
    assert TotalCompanies(c, t[..7]) == 763;
    assert TotalCompanies(c, t[..8]) == 786;
  }

  // ---------------------------------------------------------------------------
  // Firm identifiers
  // ---------------------------------------------------------------------------

  function DigitChar(d: nat): char
    requires d < 10
  {
    ('0' as int + d) as char
  }

  /** `n.toString()`: decimal digits, most significant first. */
  function DigitsOf(n: nat): (s: seq<char>)
    ensures |s| >= 1
    ensures forall i :: 0 <= i < |s| ==> '0' <= s[i] <= '9'
  {
    if n < 10 then [DigitChar(n)] else DigitsOf(n / 10) + [DigitChar(n % 10)]
  }

  /** The number a string of decimal digits denotes. */
  function ValueOf(s: seq<char>): nat
    requires forall i :: 0 <= i < |s| ==> '0' <= s[i] <= '9'
    decreases |s|
  {
    if s == [] then 0
    else ValueOf(s[..|s| - 1]) * 10 + (s[|s| - 1] as int - '0' as int)
  }

  /** Reading back the digits of `n` gives `n`. */
  lemma {:induction false} ValueOfDigits(n: nat)
    ensures ValueOf(DigitsOf(n)) == n
  {
    if n >= 10 {
      ValueOfDigits(n / 10);
      assert (DigitsOf(n / 10) + [DigitChar(n % 10)])[..|DigitsOf(n / 10)|] == DigitsOf(n / 10);
    }
  }

  /** `m` zeros. */
  function Zeros(m: nat): (z: seq<char>)
    ensures |z| == m && forall i :: 0 <= i < m ==> z[i] == '0'
  {
    seq(m, i => '0')
  }

  /** Leading zeros do not change the value. */
  lemma {:induction false} LeadingZeros(m: nat, s: seq<char>)
    requires forall i :: 0 <= i < |s| ==> '0' <= s[i] <= '9'
    ensures ValueOf(Zeros(m) + s) == ValueOf(s)
    decreases |s|
  {
    if s == [] {
      ZerosValue(m);
      assert Zeros(m) + s == Zeros(m);
    } else {
      var n := |s| - 1;
      LeadingZeros(m, s[..n]);
      assert (Zeros(m) + s)[..m + n] == Zeros(m) + s[..n];
    }
  }

  lemma {:induction false} ZerosValue(m: nat)
    ensures ValueOf(Zeros(m)) == 0
  {
    if m > 0 {
      ZerosValue(m - 1);
      assert Zeros(m)[..m - 1] == Zeros(m - 1);
    }
  }

  /** `s.padStart(width, '0')`: zeros in front up to `width` characters. */
  function PadStart(s: seq<char>, width: nat): (r: seq<char>)
    ensures |r| == if |s| >= width then |s| else width
  {
    Zeros(if |s| >= width then 0 else width - |s|) + s
  }

  /** `F` followed by the counter, zero-padded to four digits. */
  function FirmId(n: nat): (id: seq<char>)
    ensures |id| >= 5 && id[0] == 'F'
  {
    ['F'] + PadStart(DigitsOf(n), 4)
  }

  /** Reading an identifier back: the number after the `F`. */
  function ParseFirmId(id: seq<char>): Option<nat>
  {
    if |id| >= 1 && id[0] == 'F' && forall i :: 1 <= i < |id| ==> '0' <= id[i] <= '9'
    then Some(ValueOf(id[1..]))
    else None
  }

  /** Identifiers parse back to their counter. */
  lemma FirmIdRoundTrip(n: nat)
    ensures ParseFirmId(FirmId(n)) == Some(n)
  {
    var d := DigitsOf(n);
    var m := if |d| >= 4 then 0 else 4 - |d|;
    var id, tail := FirmId(n), Zeros(m) + d;
    assert id[1..] == tail;
    forall i | 1 <= i < |id|
      ensures '0' <= id[i] <= '9'
    {
      assert id[i] == tail[i - 1];
    }
    LeadingZeros(m, d);
    ValueOfDigits(n);
  }

  /** Different counters give different identifiers. */
  lemma FirmIdInjective(a: nat, b: nat)
    ensures FirmId(a) == FirmId(b) ==> a == b
  {
    FirmIdRoundTrip(a);
    FirmIdRoundTrip(b);
  }

  /** Below 10000 the identifier has exactly four digits. */
  lemma FirmIdWidth(n: nat)
    requires n < 10000
    ensures |FirmId(n)| == 5
  {
    if n >= 10 {
      if n >= 100 {
        if n >= 1000 {
          assert |DigitsOf(n / 1000)| == 1;
        }
        assert |DigitsOf(n / 100)| <= 2;
      }
      assert |DigitsOf(n / 10)| <= 3;
    }
  }

  // ---------------------------------------------------------------------------
  // The cohort
  // ---------------------------------------------------------------------------

  /** `(1 - band) * Q0`: the least output of a firm that produces `Q0`. */
  function CapacityFloor(q0: real, capacityBand: real): real
  {
    (1.0 - capacityBand) * q0
  }

  /** `(1 + band) * Q0`: the greatest output of a firm that produces `Q0`. */
  function CapacityCeiling(q0: real, capacityBand: real): real
  {
    (1.0 + capacityBand) * q0
  }

  /** The firm with global position `j` (from 0), belonging to sector number
      `sectorIndex` with `count` companies, made from the draws `7j .. 7j + 6`
      of the stream `us`: they jitter, in order, production, intensity,
      target (at half the jitter), price, variable cost, fixed cost and `k`. */
  function MakeFirm(j: nat, sectorIndex: nat, s: SectorData, c: CostData, count: nat,
                    jitterPercent: real, alpha: real, capacityBand: real, us: seq<real>): SyntheticFirm
    requires count >= 1 && 7 * j + 7 <= |us|
  {
    var q0 := JitterOf(s.production / count as real, jitterPercent, us[7 * j]);
    SyntheticFirm(
      FirmId(j + 1), s.name, sectorIndex, q0,
      JitterOf(s.intensity, jitterPercent, us[7 * j + 1]),
      JitterOf(s.target, jitterPercent * 0.5, us[7 * j + 2]),
      JitterOf(c.price, jitterPercent, us[7 * j + 3]),
      JitterOf(c.variableCost, jitterPercent, us[7 * j + 4]),
      JitterOf(c.fixedCost, jitterPercent, us[7 * j + 5]),
      JitterOf(c.k, jitterPercent, us[7 * j + 6]),
      alpha, CapacityFloor(q0, capacityBand), CapacityCeiling(q0, capacityBand))
  }

  /** A firm depends only on its own seven draws: any longer stream that
      agrees on them makes the same firm. */
  lemma MakeFirmPrefix(j: nat, sectorIndex: nat, s: SectorData, c: CostData, count: nat,
                       jitterPercent: real, alpha: real, capacityBand: real, us: seq<real>, vs: seq<real>)
    requires count >= 1 && 7 * j + 7 <= |us| <= |vs| && us == vs[..|us|]
    ensures MakeFirm(j, sectorIndex, s, c, count, jitterPercent, alpha, capacityBand, us)
         == MakeFirm(j, sectorIndex, s, c, count, jitterPercent, alpha, capacityBand, vs)
  {
    assert us[7 * j .. 7 * j + 7] == vs[7 * j .. 7 * j + 7];
  }

  /** `n` copies of `t`. */
  function Repeat(t: nat, n: nat): (r: seq<nat>)
    ensures |r| == n && forall i :: 0 <= i < n ==> r[i] == t
  {
    if n == 0 then [] else Repeat(t, n - 1) + [t]
  }

  /** The sector index of every firm of the cohort of `sectoral`, in the
      order the firms are generated: `count` copies of each sector's index,
      sector after sector. */
  function Layout(counts: map<string, nat>, sectoral: seq<SectorData>): (layout: seq<nat>)
    ensures |layout| == TotalCompanies(counts, sectoral)
    ensures forall j :: 0 <= j < |layout| ==> layout[j] < |sectoral|
    decreases |sectoral|
  {
    if sectoral == [] then []
    else
      var n := |sectoral| - 1;
      Layout(counts, sectoral[..n]) + Repeat(n, CompanyCount(counts, sectoral[n].name))
  }

  /** The firm at global position `j`, of sector number `t`, made from the
      draws `7j .. 7j + 6` of the stream `us`. */
  function FirmAt(us: seq<real>, counts: map<string, nat>, sectoral: seq<SectorData>, cost: seq<CostData>,
                  jitterPercent: real, alpha: real, capacityBand: real, j: nat, t: nat): SyntheticFirm
    requires t < |sectoral| <= |cost| && 7 * j + 7 <= |us|
  {
    MakeFirm(j, t, sectoral[t], cost[t], CompanyCount(counts, sectoral[t].name),
             jitterPercent, alpha, capacityBand, us)
  }

  /** The firms of the positions `layout`, each made from the sector the
      layout assigns to it. */
  function Firms(us: seq<real>, counts: map<string, nat>, sectoral: seq<SectorData>, cost: seq<CostData>,
                 jitterPercent: real, alpha: real, capacityBand: real, layout: seq<nat>): (firms: seq<SyntheticFirm>)
    requires |sectoral| <= |cost| && 7 * |layout| <= |us|
    requires forall j :: 0 <= j < |layout| ==> layout[j] < |sectoral|
    ensures |firms| == |layout|
  {
    seq(|layout|, j requires 0 <= j < |layout| =>
      FirmAt(us, counts, sectoral, cost, jitterPercent, alpha, capacityBand, j, layout[j]))
  }

  /** One more position, one more firm at the end. */
  lemma FirmsSnoc(us: seq<real>, counts: map<string, nat>, sectoral: seq<SectorData>, cost: seq<CostData>,
                  jitterPercent: real, alpha: real, capacityBand: real, layout: seq<nat>, t: nat)
    requires |sectoral| <= |cost| && 7 * |layout| + 7 <= |us|
    requires forall j :: 0 <= j < |layout| ==> layout[j] < |sectoral|
    requires t < |sectoral|
    ensures Firms(us, counts, sectoral, cost, jitterPercent, alpha, capacityBand, layout + [t])
         == Firms(us, counts, sectoral, cost, jitterPercent, alpha, capacityBand, layout)
            + [FirmAt(us, counts, sectoral, cost, jitterPercent, alpha, capacityBand, |layout|, t)]
  {
  }

  /** A firm drawn from the stream of the generator seeded with `origin`,
      at the next position, extends the firms of a longer stream of the same
      generator by that position. */
  lemma FirmsStep(us: seq<real>, origin: bv32, counts: map<string, nat>, sectoral: seq<SectorData>, cost: seq<CostData>,
                  jitterPercent: real, alpha: real, capacityBand: real, layout: seq<nat>, t: nat, firm: SyntheticFirm)
    requires |sectoral| <= |cost| && 7 * |layout| + 7 <= |us| && us == Stream(origin, |us|)
    requires forall j :: 0 <= j < |layout| ==> layout[j] < |sectoral|
    requires t < |sectoral|
    requires firm == MakeFirm(|layout|, t, sectoral[t], cost[t], CompanyCount(counts, sectoral[t].name),
                              jitterPercent, alpha, capacityBand, Stream(origin, 7 * |layout| + 7))
    ensures Firms(us, counts, sectoral, cost, jitterPercent, alpha, capacityBand, layout + [t])
         == Firms(us, counts, sectoral, cost, jitterPercent, alpha, capacityBand, layout) + [firm]
  {
    StreamPrefix(origin, 7 * |layout| + 7, |us|);
    MakeFirmPrefix(|layout|, t, sectoral[t], cost[t], CompanyCount(counts, sectoral[t].name),
                   jitterPercent, alpha, capacityBand, Stream(origin, 7 * |layout| + 7), us);
    FirmsSnoc(us, counts, sectoral, cost, jitterPercent, alpha, capacityBand, layout, t);
  }

  /** The cohort of the sectors `sectoral` drawn from the stream `us`: the
      firms of its layout. */
  function Cohort(us: seq<real>, counts: map<string, nat>, sectoral: seq<SectorData>, cost: seq<CostData>,
                  jitterPercent: real, alpha: real, capacityBand: real): (firms: seq<SyntheticFirm>)
    requires |sectoral| <= |cost| && 7 * TotalCompanies(counts, sectoral) <= |us|
    ensures |firms| == TotalCompanies(counts, sectoral)
  {
    Firms(us, counts, sectoral, cost, jitterPercent, alpha, capacityBand, Layout(counts, sectoral))
  }

  /** Extending the sector list by one sector appends that sector's `count`
      positions to the layout. */
  lemma LayoutSnoc(counts: map<string, nat>, sectoral: seq<SectorData>, n: nat)
    requires n < |sectoral|
    ensures Layout(counts, sectoral[..n + 1])
         == Layout(counts, sectoral[..n]) + Repeat(n, CompanyCount(counts, sectoral[n].name))
  {
    assert sectoral[..n + 1][..n] == sectoral[..n];
  }

  /** The body of the inner loop: seven draws from `rng` and the firm they
      make, at global position `j`. */
  method DrawFirm(rng: Generator, j: nat, sectorIndex: nat, s: SectorData, c: CostData, count: nat,
                  jitterPercent: real, alpha: real, capacityBand: real) returns (firm: SyntheticFirm)
    requires rng.Valid() && rng.draws == 7 * j && count >= 1
    modifies rng
    ensures rng.Valid() && rng.draws == 7 * j + 7
    ensures firm == MakeFirm(j, sectorIndex, s, c, count, jitterPercent, alpha, capacityBand,
                             Stream(rng.origin, 7 * j + 7))
  {
    var baseProduction := s.production / count as real;
    ghost var origin := rng.origin;
    var q0 := rng.Jitter(baseProduction, jitterPercent);
    assert q0 == JitterOf(baseProduction, jitterPercent, NthDraw(origin, 7 * j));
    var intensity := rng.Jitter(s.intensity, jitterPercent);
    assert intensity == JitterOf(s.intensity, jitterPercent, NthDraw(origin, 7 * j + 1));
    var target := rng.Jitter(s.target, jitterPercent * 0.5);
    assert target == JitterOf(s.target, jitterPercent * 0.5, NthDraw(origin, 7 * j + 2));
    var price := rng.Jitter(c.price, jitterPercent);
    assert price == JitterOf(c.price, jitterPercent, NthDraw(origin, 7 * j + 3));
    var variableCost := rng.Jitter(c.variableCost, jitterPercent);
    assert variableCost == JitterOf(c.variableCost, jitterPercent, NthDraw(origin, 7 * j + 4));
    var fixedCost := rng.Jitter(c.fixedCost, jitterPercent);
    assert fixedCost == JitterOf(c.fixedCost, jitterPercent, NthDraw(origin, 7 * j + 5));
    var k := rng.Jitter(c.k, jitterPercent);
    assert k == JitterOf(c.k, jitterPercent, NthDraw(origin, 7 * j + 6));
    firm := SyntheticFirm(FirmId(j + 1), s.name, sectorIndex, q0, intensity, target,
                          price, variableCost, fixedCost, k, alpha,
                          CapacityFloor(q0, capacityBand), CapacityCeiling(q0, capacityBand));
    StreamDraws(origin, j);
  }

  /** The inner loop: the `count` companies of sector `t`, appended to the
      firms made so far, at global positions `|firms| ..`. */
  method AppendSectorFirms(rng: Generator, firms: seq<SyntheticFirm>, ghost us: seq<real>, ghost layout: seq<nat>,
                           counts: map<string, nat>, sectoral: seq<SectorData>, cost: seq<CostData>, t: nat,
                           jitterPercent: real, alpha: real, capacityBand: real)
    returns (firms': seq<SyntheticFirm>, ghost layout': seq<nat>)
    requires rng.Valid() && rng.draws == 7 * |firms| && us == Stream(rng.origin, |us|)
    requires t < |sectoral| <= |cost| && |firms| == |layout|
    requires 7 * (|layout| + CompanyCount(counts, sectoral[t].name)) <= |us|
    requires forall j :: 0 <= j < |layout| ==> layout[j] < |sectoral|
    requires firms == Firms(us, counts, sectoral, cost, jitterPercent, alpha, capacityBand, layout)
    modifies rng
    ensures rng.Valid() && rng.draws == 7 * |firms'|
    ensures layout' == layout + Repeat(t, CompanyCount(counts, sectoral[t].name))
    ensures firms' == Firms(us, counts, sectoral, cost, jitterPercent, alpha, capacityBand, layout')
  {
    var sector := sectoral[t];
    var costRow := cost[t];
    var numCompanies := CompanyCount(counts, sector.name);
    firms', layout' := firms, layout;
    for i := 0 to numCompanies
      invariant rng.Valid() && |firms'| == |layout'| == |layout| + i && rng.draws == 7 * |firms'|
      invariant layout' == layout + Repeat(t, i)
      invariant firms' == Firms(us, counts, sectoral, cost, jitterPercent, alpha, capacityBand, layout')
    {
      var firm := DrawFirm(rng, |firms'|, t, sector, costRow, numCompanies, jitterPercent, alpha, capacityBand);
      FirmsStep(us, rng.origin, counts, sectoral, cost, jitterPercent, alpha, capacityBand, layout', t, firm);
      firms' := firms' + [firm];
      layout' := layout' + [t];
    }
  }

  /** `generateSyntheticFirms`: walks the sector table, and for each company of
      each sector bumps the counter and draws the seven jittered figures. The
      result is the cohort of the first `7 * n` draws of the generator seeded
      with `seed`, where `n` is the number of firms. */
  method GenerateSyntheticFirms(jitterPercent: real, seed: int, alpha: real := 0.0005, capacityBand: real := 0.20,
                                counts: map<string, nat> := SECTOR_COMPANY_COUNTS,
                                sectoral: seq<SectorData> := SECTORAL_DATA, cost: seq<CostData> := COST_DATA)
    returns (firms: seq<SyntheticFirm>)
    requires |sectoral| <= |cost|
    ensures |firms| == TotalCompanies(counts, sectoral)
    ensures firms == Cohort(Stream(SeedBits(seed), 7 * |firms|), counts, sectoral, cost,
                            jitterPercent, alpha, capacityBand)
  {
    var rng := new Generator(seed);
    firms := [];
    ghost var total := TotalCompanies(counts, sectoral);
    ghost var us := Stream(rng.origin, 7 * total);
    ghost var layout: seq<nat> := [];
    for sectorIndex := 0 to |sectoral|
      invariant rng.Valid() && rng.origin == SeedBits(seed) && rng.draws == 7 * |firms|
      invariant layout == Layout(counts, sectoral[..sectorIndex]) && |layout| <= total
      invariant firms == Firms(us, counts, sectoral, cost, jitterPercent, alpha, capacityBand, layout)
    {
      LayoutSnoc(counts, sectoral, sectorIndex);
      TotalCompaniesPrefix(counts, sectoral, sectorIndex + 1);
      firms, layout := AppendSectorFirms(rng, firms, us, layout, counts, sectoral, cost, sectorIndex,
                                         jitterPercent, alpha, capacityBand);
    }
    assert sectoral[..|sectoral|] == sectoral;
  }

  /** A prefix of the sector list has no more firms than the whole list. */
  lemma {:induction false} TotalCompaniesPrefix(counts: map<string, nat>, sectoral: seq<SectorData>, n: nat)
    requires n <= |sectoral|
    ensures TotalCompanies(counts, sectoral[..n]) <= TotalCompanies(counts, sectoral)
    decreases |sectoral|
  {
    if n < |sectoral| {
      var m := |sectoral| - 1;
      TotalCompaniesPrefix(counts, sectoral[..m], n);
      assert sectoral[..m][..n] == sectoral[..n];
    } else {
      assert sectoral[..n] == sectoral;
    }
  }

  // ---------------------------------------------------------------------------
  // What every cohort satisfies
  // ---------------------------------------------------------------------------

  /** What every firm `MakeFirm` builds carries over unchanged: its
      identifier is the counter after the increment, its sector is the one
      passed and `alpha` is the passed one. */
  lemma MakeFirmFacts(j: nat, sectorIndex: nat, s: SectorData, c: CostData, count: nat,
                      jitterPercent: real, alpha: real, capacityBand: real, us: seq<real>)
    requires count >= 1 && 7 * j + 7 <= |us|
    ensures var f := MakeFirm(j, sectorIndex, s, c, count, jitterPercent, alpha, capacityBand, us);
      && f.id == FirmId(j + 1)
      && f.sectorIndex == sectorIndex && f.sector == s.name
      && f.alpha == alpha
  {
  }

  /** The capacity band is scaled from the firm's own jittered production, so
      a non-negative band around a non-negative production brackets it. */
  lemma MakeFirmCapacity(j: nat, sectorIndex: nat, s: SectorData, c: CostData, count: nat,
                         jitterPercent: real, alpha: real, capacityBand: real, us: seq<real>)
    requires count >= 1 && 7 * j + 7 <= |us|
    ensures var f := MakeFirm(j, sectorIndex, s, c, count, jitterPercent, alpha, capacityBand, us);
      && f.capMin == (1.0 - capacityBand) * f.production
      && f.capMax == (1.0 + capacityBand) * f.production
      && (capacityBand >= 0.0 && f.production >= 0.0 ==> f.capMin <= f.production <= f.capMax)
  {
    var f := MakeFirm(j, sectorIndex, s, c, count, jitterPercent, alpha, capacityBand, us);
    if capacityBand >= 0.0 && f.production >= 0.0 {
      MulNonNegative(capacityBand, f.production);
    }
  }

  /** Production is the sector's even share jittered by the full percentage:
      for a draw in [0, 1), a non-negative percentage and a non-negative table
      value it stays within the band, and a zero percentage leaves the share. */
  lemma MakeFirmProductionBand(j: nat, sectorIndex: nat, s: SectorData, c: CostData, count: nat,
                               jitterPercent: real, alpha: real, capacityBand: real, us: seq<real>)
    requires count >= 1 && 7 * j + 7 <= |us| && 0.0 <= us[7 * j] < 1.0
    ensures var f, share := MakeFirm(j, sectorIndex, s, c, count, jitterPercent, alpha, capacityBand, us),
                            s.production / count as real;
      && (jitterPercent == 0.0 ==> f.production == share)
      && (jitterPercent >= 0.0 && s.production >= 0.0 ==>
            share * (1.0 - jitterPercent / 100.0) <= f.production <= share * (1.0 + jitterPercent / 100.0))
  {
    JitterOfBounds(s.production / count as real, jitterPercent, us[7 * j]);
  }

  /** The target is jittered by half the percentage: for a draw in [0, 1), a
      non-negative percentage and a non-negative table target it stays within
      that narrower band, and a zero percentage leaves the table target. */
  lemma MakeFirmTargetBand(j: nat, sectorIndex: nat, s: SectorData, c: CostData, count: nat,
                           jitterPercent: real, alpha: real, capacityBand: real, us: seq<real>)
    requires count >= 1 && 7 * j + 7 <= |us| && 0.0 <= us[7 * j + 2] < 1.0
    ensures var f, half := MakeFirm(j, sectorIndex, s, c, count, jitterPercent, alpha, capacityBand, us),
                           jitterPercent * 0.5;
      && (jitterPercent == 0.0 ==> f.target == s.target)
      && (jitterPercent >= 0.0 && s.target >= 0.0 ==>
            s.target * (1.0 - half / 100.0) <= f.target <= s.target * (1.0 + half / 100.0))
  {
    JitterOfBounds(s.target, jitterPercent * 0.5, us[7 * j + 2]);
  }

  /** Every firm of a cohort: consecutive identifiers from `F0001`, the sector
      the layout assigns, a sector name that matches its sector index and the
      passed `alpha`. */
  lemma CohortFirmFacts(us: seq<real>, counts: map<string, nat>, sectoral: seq<SectorData>, cost: seq<CostData>,
                        jitterPercent: real, alpha: real, capacityBand: real, j: nat)
    requires |sectoral| <= |cost| && 7 * TotalCompanies(counts, sectoral) <= |us|
    requires j < TotalCompanies(counts, sectoral)
    ensures var f := Cohort(us, counts, sectoral, cost, jitterPercent, alpha, capacityBand)[j];
      && f.id == FirmId(j + 1)
      && f.sectorIndex == Layout(counts, sectoral)[j] < |sectoral|
      && f.sector == sectoral[f.sectorIndex].name
      && f.alpha == alpha
  {
    var t := Layout(counts, sectoral)[j];
    assert Cohort(us, counts, sectoral, cost, jitterPercent, alpha, capacityBand)[j]
        == FirmAt(us, counts, sectoral, cost, jitterPercent, alpha, capacityBand, j, t);
    MakeFirmFacts(j, t, sectoral[t], cost[t], CompanyCount(counts, sectoral[t].name),
                  jitterPercent, alpha, capacityBand, us);
  }

  /** Sector indices never decrease along the layout: firms are grouped by
      sector, in table order. */
  lemma {:induction false} LayoutGrouped(counts: map<string, nat>, sectoral: seq<SectorData>, i: nat, j: nat)
    requires i <= j < TotalCompanies(counts, sectoral)
    ensures Layout(counts, sectoral)[i] <= Layout(counts, sectoral)[j]
    decreases |sectoral|
  {
    var n := |sectoral| - 1;
    var pre := Layout(counts, sectoral[..n]);
    if j < |pre| {
      LayoutGrouped(counts, sectoral[..n], i, j);
    }
  }

  /** Sector `t` occupies exactly its `count` positions. */
  lemma {:induction false} LayoutCount(counts: map<string, nat>, sectoral: seq<SectorData>, t: nat)
    requires t < |sectoral|
    ensures multiset(Layout(counts, sectoral))[t] == CompanyCount(counts, sectoral[t].name)
    decreases |sectoral|
  {
    var n := |sectoral| - 1;
    var pre: seq<nat> := Layout(counts, sectoral[..n]);
    var m: nat := CompanyCount(counts, sectoral[n].name);
    assert multiset(Layout(counts, sectoral))[t] == multiset(pre)[t] + multiset(Repeat(n, m))[t];
    BlockMultiset(m, n, t);
    if t < n {
      LayoutCount(counts, sectoral[..n], t);
      assert sectoral[..n][t] == sectoral[t];
    } else {
      LayoutBelow(counts, sectoral[..n], n);
    }
  }

  /** A run of `m` copies of `n` holds `n` `m` times and nothing else. */
  lemma {:induction false} BlockMultiset(m: nat, n: nat, x: nat)
    ensures multiset(Repeat(n, m))[x] == if x == n then m else 0
  {
    if m > 0 {
      BlockMultiset(m - 1, n, x);
    }
  }

  /** No position of the layout of a sector list names a sector past its end. */
  lemma LayoutBelow(counts: map<string, nat>, sectoral: seq<SectorData>, t: nat)
    requires t >= |sectoral|
    ensures multiset(Layout(counts, sectoral))[t] == 0
  {
    var layout := Layout(counts, sectoral);
    assert t !in layout;
  }

  /** No two firms of a cohort share an identifier. */
  lemma CohortIdsDistinct(us: seq<real>, counts: map<string, nat>, sectoral: seq<SectorData>, cost: seq<CostData>,
                          jitterPercent: real, alpha: real, capacityBand: real, i: nat, j: nat)
    requires |sectoral| <= |cost| && 7 * TotalCompanies(counts, sectoral) <= |us|
    requires i < j < TotalCompanies(counts, sectoral)
    ensures var firms := Cohort(us, counts, sectoral, cost, jitterPercent, alpha, capacityBand);
      firms[i].id != firms[j].id
  {
    CohortFirmFacts(us, counts, sectoral, cost, jitterPercent, alpha, capacityBand, i);
    CohortFirmFacts(us, counts, sectoral, cost, jitterPercent, alpha, capacityBand, j);
    FirmIdInjective(i + 1, j + 1);
  }

  // ---------------------------------------------------------------------------
  // Archetypes
  // ---------------------------------------------------------------------------

  datatype Archetype =
    | AggressiveAbater
    | ReluctantFollower
    | ChronicEmitter
    | EfficientNicheProducer
    | MarginalProducer
    | TypicalProducer

  /** The label the application shows. */
  function Label(a: Archetype): string
  {
    match a
    case AggressiveAbater => "Aggressive Abater"
    case ReluctantFollower => "Reluctant Follower"
    case ChronicEmitter => "Chronic Emitter"
    case EfficientNicheProducer => "Efficient Niche Producer"
    case MarginalProducer => "Marginal Producer"
    case TypicalProducer => "Typical Producer"
  }

  /** `num / den < bound` under IEEE division: a zero denominator gives minus
      infinity for a negative numerator (below every bound), plus infinity for
      a positive one and NaN for zero (neither below anything). */
  function QuotientBelow(num: real, den: real, bound: real): (b: bool)
    ensures den != 0.0 ==> (b <==> num / den < bound)
    ensures den == 0.0 ==> (b <==> num < 0.0)
  {
    if den != 0.0 then num / den < bound else num < 0.0
  }

  /** `production / total < bound` for the sector total the caller looked up:
      an absent total (an unknown sector name reads as `undefined`) makes the
      quotient NaN, which is below nothing. */
  function ShareBelow(production: real, total: Option<real>, bound: real): (b: bool)
    ensures total.None? ==> !b
    ensures total.Some? ==> (b <==> QuotientBelow(production, total.value, bound))
  {
    match total
    case None => false
    case Some(t) => QuotientBelow(production, t, bound)
  }

  /** `classifyArchetype`: the first rule that holds decides, in the order
      abatement cost and small gap, moderate cost and gap, high cost and large
      gap, small share at low intensity, thin margin; otherwise typical. */
  function ClassifyArchetype(firm: SyntheticFirm, sectorTotalProduction: Option<real>): (a: Archetype)
    ensures a == AggressiveAbater <==> firm.k <= 120.0 && firm.baseIntensity - firm.target < 0.2
    ensures a == ChronicEmitter ==> firm.k >= 180.0 && firm.baseIntensity - firm.target > 0.8
    ensures sectorTotalProduction.None? ==> a != EfficientNicheProducer
    ensures a == TypicalProducer ==> !QuotientBelow(firm.price - firm.variableCost, firm.price, 0.1)
  {
    var intensityGap := firm.baseIntensity - firm.target;
    if firm.k <= 120.0 && intensityGap < 0.2 then AggressiveAbater
    else if firm.k > 120.0 && firm.k <= 150.0 && intensityGap >= 0.2 && intensityGap < 0.5 then ReluctantFollower
    else if firm.k >= 180.0 && intensityGap > 0.8 then ChronicEmitter
    else if ShareBelow(firm.production, sectorTotalProduction, 0.05) && firm.baseIntensity < 1.0
    then EfficientNicheProducer
    else if QuotientBelow(firm.price - firm.variableCost, firm.price, 0.1) then MarginalProducer
    else TypicalProducer
  }

  /** The five rules, as a list, in the order they are tried. */
  function Rules(firm: SyntheticFirm, sectorTotalProduction: Option<real>): (rules: seq<bool>)
    ensures |rules| == 5
  {
    var gap := firm.baseIntensity - firm.target;
    [ firm.k <= 120.0 && gap < 0.2,
      firm.k > 120.0 && firm.k <= 150.0 && gap >= 0.2 && gap < 0.5,
      firm.k >= 180.0 && gap > 0.8,
      ShareBelow(firm.production, sectorTotalProduction, 0.05) && firm.baseIntensity < 1.0,
      QuotientBelow(firm.price - firm.variableCost, firm.price, 0.1) ]
  }

  /** The archetype each rule yields, followed by the fallback. */
  const RuleOutcomes: seq<Archetype> :=
    [AggressiveAbater, ReluctantFollower, ChronicEmitter, EfficientNicheProducer, MarginalProducer, TypicalProducer]

  /** Position of the first true entry at or after `i`, or the length when
      there is none. */
  function FirstMatch(rules: seq<bool>, i: nat): (m: nat)
    requires i <= |rules|
    ensures i <= m <= |rules|
    ensures m < |rules| ==> rules[m]
    ensures forall j :: i <= j < m ==> !rules[j]
    decreases |rules| - i
  {
    if i == |rules| then i
    else if rules[i] then i
    else FirstMatch(rules, i + 1)
  }

  /** The if-chain is the first-match reading of the rule list. */
  lemma ClassifyIsFirstMatch(firm: SyntheticFirm, sectorTotalProduction: Option<real>)
    ensures ClassifyArchetype(firm, sectorTotalProduction)
         == RuleOutcomes[FirstMatch(Rules(firm, sectorTotalProduction), 0)]
  {
    var r := Rules(firm, sectorTotalProduction);
    assert FirstMatch(r, 5) == 5;
    assert FirstMatch(r, 4) == if r[4] then 4 else 5;
    assert FirstMatch(r, 3) == if r[3] then 3 else FirstMatch(r, 4);
    assert FirstMatch(r, 2) == if r[2] then 2 else FirstMatch(r, 3);
    assert FirstMatch(r, 1) == if r[1] then 1 else FirstMatch(r, 2);
  }

  /** An archetype is given exactly when its rule holds and no earlier one
      does; `Typical Producer` exactly when no rule holds. */
  lemma ArchetypeIffRule(firm: SyntheticFirm, sectorTotalProduction: Option<real>, i: nat)
    requires i <= 5
    ensures var rules := Rules(firm, sectorTotalProduction);
      ClassifyArchetype(firm, sectorTotalProduction) == RuleOutcomes[i] <==>
        (i == 5 || rules[i]) && forall j :: 0 <= j < i ==> !rules[j]
  {
    ClassifyIsFirstMatch(firm, sectorTotalProduction);
    var rules := Rules(firm, sectorTotalProduction);
    var m := FirstMatch(rules, 0);
    if (i == 5 || rules[i]) && forall j :: 0 <= j < i ==> !rules[j] {
      assert m == i;
    }
  }

  /** A cheap abater with a small gap is an aggressive abater whatever its
      margin or production share. */
  lemma CheapSmallGapIsAggressive(firm: SyntheticFirm, sectorTotalProduction: Option<real>)
    requires firm.k <= 120.0 && firm.baseIntensity - firm.target < 0.2
    ensures ClassifyArchetype(firm, sectorTotalProduction) == AggressiveAbater
  {
  }
}
