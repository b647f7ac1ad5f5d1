/**
 * The quotation calculation of the solar calculator: from a monthly
 * electricity bill, the distribution company's tariff, the system type and
 * the three brand prices it derives the system size, the cost breakdown, the
 * central and state subsidies, the net payable amount, the savings and the
 * payback and return-on-investment figures.
 *
 * Amounts are exact: `int` where the source computes with integers (system
 * size, roof area, balance-of-system cost, subsidies) and `real` where it
 * computes with floats.
 */
module SolarQuote {
  import opened Wrappers
  import opened Rounding

  /** The three system types offered by the form. */
  datatype SystemType = OnGrid | OffGrid | Hybrid

  /** The one failure of the calculation: a zero tariff divides by zero. */
  datatype QuoteError = DivisionByZero

  /** The full breakdown of one quotation. */
  datatype Quotation = Quotation(
    units: real,
    systemKw: int,
    roofSize: int,
    panelCost: real,
    inverterCost: real,
    bosCost: int,
    batteryCost: real,
    totalCost: real,
    centralSubsidy: int,
    stateSubsidy: int,
    netPayable: real,
    monthlySavings: real,
    annualSavings: real,
    payback: Option<real>,
    roi: Option<real>)

  // ---------------------------------------------------------------------
  // Sizing
  // ---------------------------------------------------------------------

  /** Units of energy bought per month. */
  function MonthlyUnits(bill: int, tariff: real): (units: real)
    requires tariff != 0.0
    ensures units * tariff == bill as real
  {
    bill as real / tariff
  }

  /**
   * System size in kW by ceiling division, written as the source writes it:
   * the negated floor of the negated quotient.  One kW is taken to generate
   * 120 units a month, and the result is the least whole number of kW that
   * covers `units`.
   */
  function SystemKw(units: real): (kw: int)
    ensures kw as real * 120.0 >= units
    ensures (kw - 1) as real * 120.0 < units
  {
    -((-units / 120.0).Floor)
  }

  /** Every whole size that covers `units` is at least the chosen size. */
  lemma SystemKwIsLeast(units: real, k: int)
    requires k as real * 120.0 >= units
    ensures SystemKw(units) <= k
  {
    var kw := SystemKw(units);
    assert (kw - 1) as real * 120.0 < k as real * 120.0;
  }

  /** The least covering size is unique. */
  lemma SystemKwUnique(units: real, k: int)
    requires k as real * 120.0 >= units
    requires (k - 1) as real * 120.0 < units
    ensures SystemKw(units) == k
  {
    SystemKwIsLeast(units, k);
    var kw := SystemKw(units);
    assert (k - 1) as real * 120.0 < kw as real * 120.0;
  }

  /** More units never give a smaller system. */
  lemma SystemKwMonotone(u1: real, u2: real)
    requires u1 <= u2
    ensures SystemKw(u1) <= SystemKw(u2)
  {
    SystemKwIsLeast(u1, SystemKw(u2));
  }

  /** For a fixed positive tariff, a larger bill never gives a smaller system. */
  lemma SystemKwGrowsWithBill(bill1: int, bill2: int, tariff: real)
    requires bill1 <= bill2
    requires tariff > 0.0
    ensures SystemKw(MonthlyUnits(bill1, tariff)) <= SystemKw(MonthlyUnits(bill2, tariff))
  {
    assert MonthlyUnits(bill1, tariff) <= MonthlyUnits(bill2, tariff) by {
      assert (bill2 - bill1) as real / tariff >= 0.0;
    }
    SystemKwMonotone(MonthlyUnits(bill1, tariff), MonthlyUnits(bill2, tariff));
  }

  /**
   * Within the form's bounds (a bill of 500 to 50000 and a tariff of 1.0 to
   * 15.0) the system has 1 to 417 kW: the units lie between 500/15 and 50000.
   */
  lemma SystemKwInRange(bill: int, tariff: real)
    requires 500 <= bill <= 50000
    requires 1.0 <= tariff <= 15.0
    ensures 1 <= SystemKw(MonthlyUnits(bill, tariff)) <= 417
  {
    var units := MonthlyUnits(bill, tariff);
    assert units > 0.0 by {
      assert units * tariff == bill as real;
    }
    assert units <= 50000.0 by {
      assert units * tariff == bill as real;
      assert units * tariff >= units * 1.0;
    }
    SystemKwIsLeast(units, 417);
  }

  /** Roof area in square feet: 100 per kW. */
  function RoofSize(kw: int): (area: int)
    ensures area % 100 == 0 && area / 100 == kw
  {
    kw * 100
  }

  // ---------------------------------------------------------------------
  // Costs
  // ---------------------------------------------------------------------

  /** Panel cost: the size in watts times the brand's price per watt. */
  function PanelCost(kw: int, pricePerW: real): (cost: real)
    ensures cost == (1000 * kw) as real * pricePerW
  {
    kw as real * 1000.0 * pricePerW
  }

  /** Balance-of-system cost: 10000 per kW. */
  function BosCost(kw: int): (cost: int)
    ensures cost % 10000 == 0 && cost / 10000 == kw
  {
    kw * 10000
  }

  /** Battery cost: 2 kWh of storage per kW, and none for an On-Grid system. */
  function BatteryCost(kw: int, ty: SystemType, pricePerKWh: real): (cost: real)
    ensures ty == OnGrid ==> cost == 0.0
    ensures ty != OnGrid ==> cost == (2 * kw) as real * pricePerKWh
  {
    if ty in {OffGrid, Hybrid} then kw as real * 2.0 * pricePerKWh
    else assert ty.OnGrid?; 0.0
  }

  /** Total cost of the installation: exactly the sum of the four parts, with no rounding. */
  function TotalCost(panelCost: real, inverterCost: real, bosCost: int, batteryCost: real): (total: real)
    ensures total - batteryCost == panelCost + inverterCost + bosCost as real
  {
    panelCost + inverterCost + bosCost as real + batteryCost
  }

  /** An On-Grid system has no battery cost, whatever the battery's price. */
  lemma BatteryCostOnGrid(kw: int, pricePerKWh: real)
    ensures BatteryCost(kw, OnGrid, pricePerKWh) == 0.0
  {
  }

  /** Off-Grid and Hybrid systems pay for 2 kWh of storage per kW. */
  lemma BatteryCostWithStorage(kw: int, ty: SystemType, pricePerKWh: real)
    requires ty != OnGrid
    ensures BatteryCost(kw, ty, pricePerKWh) == 2.0 * kw as real * pricePerKWh
  {
  }

  // ---------------------------------------------------------------------
  // Subsidies
  // ---------------------------------------------------------------------

  /**
   * Central subsidy: 30000 per kW up to 2 kW, then 78000.  The source has a
   * separate branch for exactly 3 kW that gives the same 78000 as the
   * branch for larger systems; both are kept.
   */
  function CentralSubsidy(kw: int): (s: int)
    ensures s <= 78000
    ensures kw >= 3 ==> s == 78000
  {
    if kw <= 2 then kw * 30000
    else if kw == 3 then 78000
    else 78000
  }

  /** The central subsidy of the two lower tiers is 30000 per kW. */
  lemma CentralSubsidyLowTier(kw: int)
    requires kw <= 2
    ensures CentralSubsidy(kw) == 30000 * kw
  {
  }

  /** A larger system never receives a smaller central subsidy. */
  lemma CentralSubsidyMonotone(k1: int, k2: int)
    requires k1 <= k2
    ensures CentralSubsidy(k1) <= CentralSubsidy(k2)
  {
  }

  /** State subsidy: 15000 per kW, capped at 30000 (Python's min). */
  function StateSubsidy(kw: int): (s: int)
    ensures s <= 30000
    ensures s <= 15000 * kw
    ensures s == 30000 || s == 15000 * kw
  {
    var perKw := kw * 15000;
    if 30000 < perKw then 30000 else perKw
  }

  /** Up to 2 kW the state subsidy is 15000 per kW; from 2 kW on it is the cap. */
  lemma StateSubsidyTiers(kw: int)
    ensures kw <= 2 ==> StateSubsidy(kw) == 15000 * kw
    ensures kw >= 2 ==> StateSubsidy(kw) == 30000
  {
  }

  /** A larger system never receives a smaller state subsidy. */
  lemma StateSubsidyMonotone(k1: int, k2: int)
    requires k1 <= k2
    ensures StateSubsidy(k1) <= StateSubsidy(k2)
  {
  }

  /** Amount left to pay after both subsidies; it is not clamped at zero. */
  function NetPayable(totalCost: real, centralSubsidy: int, stateSubsidy: int): (net: real)
    ensures net + (centralSubsidy + stateSubsidy) as real == totalCost
  {
    totalCost - (centralSubsidy + stateSubsidy) as real
  }

  // ---------------------------------------------------------------------
  // Financials
  // ---------------------------------------------------------------------

  /** Monthly savings: 70 per cent of the bill. */
  function MonthlySavings(bill: int): (savings: real)
    ensures 10.0 * savings == 7.0 * bill as real
  {
    bill as real * 0.7
  }

  /** Annual savings: twelve months of savings. */
  function AnnualSavings(monthlySavings: real): (savings: real)
    ensures savings / 12.0 == monthlySavings
  {
    monthlySavings * 12.0
  }

  /**
   * Payback in years, rounded to one decimal; undefined unless the annual
   * savings are positive.
   */
  function Payback(netPayable: real, annualSavings: real): (p: Option<real>)
    ensures p.Some? <==> annualSavings > 0.0
    ensures annualSavings > 0.0 ==> Abs(p.value - netPayable / annualSavings) <= 0.05
  {
    if annualSavings > 0.0 then Some(RoundTenth(netPayable / annualSavings)) else None
  }

  /**
   * Return on investment in per cent, rounded to one decimal; undefined
   * unless the net payable amount is positive.
   */
  function Roi(annualSavings: real, netPayable: real): (r: Option<real>)
    ensures r.Some? <==> netPayable > 0.0
    ensures netPayable > 0.0 ==> Abs(r.value - annualSavings / netPayable * 100.0) <= 0.05
  {
    if netPayable > 0.0 then Some(RoundTenth((annualSavings / netPayable) * 100.0)) else None
  }

  // ---------------------------------------------------------------------
  // The whole quotation
  // ---------------------------------------------------------------------

  /**
   * What a quotation for these inputs is, stated as relations between its
   * fields rather than as the chain of steps that computes it, in four
   * groups: sizing, costs, subsidies and financials.
   */
  ghost predicate IsQuotationFor(bill: int, tariff: real, ty: SystemType,
                                 pricePerW: real, inverterPrice: real, pricePerKWh: real,
                                 q: Quotation)
  {
    && SizingHolds(bill, tariff, q)
    && CostsHold(ty, pricePerW, inverterPrice, pricePerKWh, q)
    && SubsidiesHold(q)
    && FinancialsHold(bill, q)
  }

  /** The units cost `bill` at `tariff`, and the size is the least whole kW covering them. */
  ghost predicate SizingHolds(bill: int, tariff: real, q: Quotation)
  {
    && q.units * tariff == bill as real
    && q.systemKw as real * 120.0 >= q.units
    && (q.systemKw - 1) as real * 120.0 < q.units
    && q.roofSize == 100 * q.systemKw
  }

  /** The cost breakdown for the quotation's size, and its sum. */
  ghost predicate CostsHold(ty: SystemType, pricePerW: real, inverterPrice: real, pricePerKWh: real,
                            q: Quotation)
  {
    && q.panelCost == 1000.0 * q.systemKw as real * pricePerW
    && q.inverterCost == inverterPrice
    && q.bosCost == 10000 * q.systemKw
    && (ty == OnGrid ==> q.batteryCost == 0.0)
    && (ty != OnGrid ==> q.batteryCost == 2.0 * q.systemKw as real * pricePerKWh)
    && q.totalCost == q.panelCost + q.inverterCost + q.bosCost as real + q.batteryCost
  }

  /** The two subsidy tiers, the capped state subsidy, and what is left to pay. */
  ghost predicate SubsidiesHold(q: Quotation)
  {
    && (q.systemKw <= 2 ==> q.centralSubsidy == 30000 * q.systemKw)
    && (q.systemKw >= 3 ==> q.centralSubsidy == 78000)
    && q.stateSubsidy <= 30000
    && q.stateSubsidy <= 15000 * q.systemKw
    && (q.stateSubsidy == 30000 || q.stateSubsidy == 15000 * q.systemKw)
    && q.netPayable + (q.centralSubsidy + q.stateSubsidy) as real == q.totalCost
  }

  /** Savings of 70 per cent of the bill, and when payback and ROI are defined. */
  ghost predicate FinancialsHold(bill: int, q: Quotation)
  {
    && q.monthlySavings == 0.7 * bill as real
    && q.annualSavings == 12.0 * q.monthlySavings
    && (q.payback.Some? <==> q.annualSavings > 0.0)
    && (q.payback.Some? ==> q.payback.value == RoundTenth(q.netPayable / q.annualSavings))
    && (q.roi.Some? <==> q.netPayable > 0.0)
    && (q.roi.Some? ==> q.roi.value == RoundTenth(q.annualSavings / q.netPayable * 100.0))
  }

  /** The calculation, step by step, for a non-zero tariff. */
  function Calculate(bill: int, tariff: real, ty: SystemType,
                     pricePerW: real, inverterPrice: real, pricePerKWh: real): (q: Quotation)
    requires tariff != 0.0
    ensures IsQuotationFor(bill, tariff, ty, pricePerW, inverterPrice, pricePerKWh, q)
  {
    var units := MonthlyUnits(bill, tariff);
    var kw := SystemKw(units);
    var panel := PanelCost(kw, pricePerW);
    var bos := BosCost(kw);
    var battery := BatteryCost(kw, ty, pricePerKWh);
    var total := TotalCost(panel, inverterPrice, bos, battery);
    var central := CentralSubsidy(kw);
    var state := StateSubsidy(kw);
    var net := NetPayable(total, central, state);
    var monthly := MonthlySavings(bill);
    var annual := AnnualSavings(monthly);
    Quotation(units, kw, RoofSize(kw), panel, inverterPrice, bos, battery, total,
              central, state, net, monthly, annual,
              Payback(net, annual), Roi(annual, net))
  }

  /**
   * The quotation for the given inputs.  A zero tariff fails with
   * DivisionByZero, where the source raises; every other input gives a
   * quotation.
   */
  function Quote(bill: int, tariff: real, ty: SystemType,
                 pricePerW: real, inverterPrice: real, pricePerKWh: real): (r: Result<Quotation, QuoteError>)
    ensures r.Err? <==> tariff == 0.0
    ensures r.Ok? ==> IsQuotationFor(bill, tariff, ty, pricePerW, inverterPrice, pricePerKWh, r.value)
  {
    if tariff == 0.0 then Err(DivisionByZero)
    else Ok(Calculate(bill, tariff, ty, pricePerW, inverterPrice, pricePerKWh))
  }

  /** Two unit counts that both cost `bill` at `tariff` are equal. */
  lemma UnitsDetermined(bill: int, tariff: real, u1: real, u2: real)
    requires tariff != 0.0
    requires u1 * tariff == bill as real
    requires u2 * tariff == bill as real
    ensures u1 == u2
  {
    assert (u1 - u2) * tariff == 0.0;
  }

  /** The sizing relations determine the units, the size and the roof area. */
  lemma SizingDetermined(bill: int, tariff: real, q: Quotation, p: Quotation)
    requires tariff != 0.0
    requires SizingHolds(bill, tariff, q) && SizingHolds(bill, tariff, p)
    ensures q.units == p.units && q.systemKw == p.systemKw && q.roofSize == p.roofSize
  {
    UnitsDetermined(bill, tariff, q.units, p.units);
    SystemKwUnique(q.units, q.systemKw);
    SystemKwUnique(q.units, p.systemKw);
  }

  /** For one size, the cost relations determine the costs. */
  lemma CostsDetermined(ty: SystemType, pricePerW: real, inverterPrice: real, pricePerKWh: real,
                        q: Quotation, p: Quotation)
    requires q.systemKw == p.systemKw
    requires CostsHold(ty, pricePerW, inverterPrice, pricePerKWh, q)
    requires CostsHold(ty, pricePerW, inverterPrice, pricePerKWh, p)
    ensures q.panelCost == p.panelCost && q.inverterCost == p.inverterCost
    ensures q.bosCost == p.bosCost && q.batteryCost == p.batteryCost
    ensures q.totalCost == p.totalCost
  {
  }

  /** For one size and total cost, the subsidy relations determine the subsidies. */
  lemma SubsidiesDetermined(q: Quotation, p: Quotation)
    requires q.systemKw == p.systemKw && q.totalCost == p.totalCost
    requires SubsidiesHold(q) && SubsidiesHold(p)
    ensures q.centralSubsidy == p.centralSubsidy && q.stateSubsidy == p.stateSubsidy
    ensures q.netPayable == p.netPayable
  {
  }

  /** For one net payable amount, the financial relations determine the financials. */
  lemma FinancialsDetermined(bill: int, q: Quotation, p: Quotation)
    requires q.netPayable == p.netPayable
    requires FinancialsHold(bill, q) && FinancialsHold(bill, p)
    ensures q.monthlySavings == p.monthlySavings && q.annualSavings == p.annualSavings
    ensures q.payback == p.payback && q.roi == p.roi
  {
  }

  /** The relational description determines the quotation: Quote gives the only one. */
  lemma QuoteIsUnique(bill: int, tariff: real, ty: SystemType,
                      pricePerW: real, inverterPrice: real, pricePerKWh: real, q: Quotation)
    requires tariff != 0.0
    requires IsQuotationFor(bill, tariff, ty, pricePerW, inverterPrice, pricePerKWh, q)
    ensures Quote(bill, tariff, ty, pricePerW, inverterPrice, pricePerKWh) == Ok(q)
  {
    var p := Calculate(bill, tariff, ty, pricePerW, inverterPrice, pricePerKWh);
    SizingDetermined(bill, tariff, q, p);
    CostsDetermined(ty, pricePerW, inverterPrice, pricePerKWh, q, p);
    SubsidiesDetermined(q, p);
    FinancialsDetermined(bill, q, p);
  }

  /** Within the form's bounds the payback figure is always defined. */
  lemma PaybackDefinedInRange(bill: int, tariff: real, ty: SystemType,
                              pricePerW: real, inverterPrice: real, pricePerKWh: real)
    requires 500 <= bill <= 50000
    requires 1.0 <= tariff <= 15.0
    ensures Quote(bill, tariff, ty, pricePerW, inverterPrice, pricePerKWh).Ok?
    ensures Quote(bill, tariff, ty, pricePerW, inverterPrice, pricePerKWh).value.payback.Some?
  {
  }

  /**
   * Within the form's bounds the size lies in 1..417 kW, the roof area in
   * 100..41700 sqft, and the subsidies together come to 45000..108000.
   */
  lemma QuoteInRange(bill: int, tariff: real, ty: SystemType,
                     pricePerW: real, inverterPrice: real, pricePerKWh: real)
    requires 500 <= bill <= 50000
    requires 1.0 <= tariff <= 15.0
    ensures var q := Quote(bill, tariff, ty, pricePerW, inverterPrice, pricePerKWh).value;
      && 1 <= q.systemKw <= 417
      && 100 <= q.roofSize <= 41700
      && 45000 <= q.centralSubsidy + q.stateSubsidy <= 108000
  {
    SystemKwInRange(bill, tariff);
    var kw := SystemKw(MonthlyUnits(bill, tariff));
    CentralSubsidyMonotone(1, kw);
    StateSubsidyMonotone(1, kw);
  }

  /** The battery's price plays no part in an On-Grid quotation. */
  lemma OnGridIgnoresBatteryPrice(bill: int, tariff: real, pricePerW: real, inverterPrice: real,
                                  price1: real, price2: real)
    ensures Quote(bill, tariff, OnGrid, pricePerW, inverterPrice, price1)
         == Quote(bill, tariff, OnGrid, pricePerW, inverterPrice, price2)
  {
  }

  /**
   * The net payable amount can be negative for inputs the form accepts
   * (subsidies larger than the cost), and the ROI is then undefined.
   */
  lemma NetPayableCanBeNegative()
    ensures exists bill: int, tariff: real, pricePerW: real, inverterPrice: real, pricePerKWh: real ::
      && 500 <= bill <= 50000 && 1.0 <= tariff <= 15.0
      && pricePerW > 0.0 && inverterPrice > 0.0 && pricePerKWh > 0.0
      && Quote(bill, tariff, OnGrid, pricePerW, inverterPrice, pricePerKWh).value.netPayable < 0.0
      && Quote(bill, tariff, OnGrid, pricePerW, inverterPrice, pricePerKWh).value.roi == None
  {
    var q := Quote(500, 15.0, OnGrid, 1.0, 1.0, 1.0).value;
    SystemKwUnique(q.units, 1);
    assert q.totalCost == 11001.0;
    assert q.netPayable == -33999.0;
  }

  /** A bill of 4000 at a tariff of 7.5 needs 5 kW and 500 sqft of roof. */
  lemma ExampleSizing(ty: SystemType, pricePerW: real, inverterPrice: real, pricePerKWh: real)
    ensures Quote(4000, 7.5, ty, pricePerW, inverterPrice, pricePerKWh).value.systemKw == 5
    ensures Quote(4000, 7.5, ty, pricePerW, inverterPrice, pricePerKWh).value.roofSize == 500
  {
    var q := Quote(4000, 7.5, ty, pricePerW, inverterPrice, pricePerKWh).value;
    SystemKwUnique(q.units, 5);
  }

  /** A 5 kW Hybrid system with batteries at 20000 per kWh pays 200000 for them. */
  lemma ExampleHybridBattery(pricePerW: real, inverterPrice: real)
    ensures Quote(4000, 7.5, Hybrid, pricePerW, inverterPrice, 20000.0).value.batteryCost == 200000.0
  {
    ExampleSizing(Hybrid, pricePerW, inverterPrice, 20000.0);
  }
}
