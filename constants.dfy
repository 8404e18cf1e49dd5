/** The static parameter tables of the nine covered sectors and the price
    search interval. The engines take these tables as inputs; the rows below are
    the ones the application ships. */
module Constants {

  /** One sector aggregate: baseline output, emission intensity and the
      regulatory target intensity. */
  datatype SectorData = SectorData(
    name: string,
    emissions: real,
    production: real,
    intensity: real,
    target: real)

  /** Product economics and the abatement coefficient `k` of one sector. */
  datatype CostData = CostData(
    name: string,
    sector: string,
    fixedCost: real,
    variableCost: real,
    price: real,
    k: real)

  const SECTORAL_DATA: seq<SectorData> := [
    SectorData("Steel", 297.6, 120.0, 2.48, 2.25),
    SectorData("Aluminium", 75.2, 3.6, 20.88, 18.79),
    SectorData("Cement", 219.1, 337.0, 0.65, 0.59),
    SectorData("Fertiliser", 24.9, 43.0, 0.58, 0.52),
    SectorData("Textile", 25.0, 9.5, 2.63, 2.37),
    SectorData("Paper & Pulp", 30.5, 19.3, 1.58, 1.40),
    SectorData("Petrochemicals", 94.9, 26.5, 3.58, 3.22),
    SectorData("Petroleum Refining", 68.0, 243.0, 0.28, 0.25),
    SectorData("Chlor Alkali", 11.9, 4.5, 2.63, 2.36)
  ]

  const COST_DATA: seq<CostData> := [
    CostData("Steel", "Steel", 17500.0, 40000.0, 62500.0, 150.0),
    CostData("Aluminium", "Aluminium", 70000.0, 140000.0, 230000.0, 200.0),
    CostData("Cement", "Cement", 1400.0, 4100.0, 6000.0, 100.0),
    CostData("Fertiliser", "Fertiliser", 5000.0, 18000.0, 25000.0, 120.0),
    CostData("Textile", "Textile", 60000.0, 155000.0, 250000.0, 180.0),
    CostData("Paper & Pulp", "Paper & Pulp", 17500.0, 40000.0, 62500.0, 150.0),
    CostData("Petrochemicals", "Petrochemicals", 25000.0, 70000.0, 105000.0, 160.0),
    CostData("Petroleum Refining", "Petroleum Refining", 20000.0, 60000.0, 90000.0, 120.0),
    CostData("Chlor Alkali", "Chlor Alkali", 12000.0, 20000.0, 35000.0, 130.0)
  ]

  /** Lower and upper end of the carbon-price search interval. */
  const P_MIN: real := 0.0
  const P_MAX: real := 100000.0
}
