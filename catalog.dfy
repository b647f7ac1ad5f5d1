/**
 * Looking up the selected brands in the three price tables (brand to price
 * per watt, brand to inverter price, brand to price per kWh) and running the
 * calculation with the prices found.  A brand missing from its table is a
 * failed lookup, as a dictionary lookup in the source fails; the battery
 * table is consulted only for systems that have a battery.
 */
module PriceCatalog {
  import opened Wrappers
  import opened SolarQuote

  /** The three price tables, keyed by brand name. */
  datatype Catalog = Catalog(
    panelPricePerW: map<string, real>,
    inverterPrice: map<string, real>,
    batteryPricePerKWh: map<string, real>)

  /** The brands chosen on the form. */
  datatype Selection = Selection(panelBrand: string, inverterBrand: string, batteryBrand: string)

  /** Which of the three tables a lookup used. */
  datatype Table = PanelTable | InverterTable | BatteryTable

  /** Why a quotation could not be produced. */
  datatype CatalogError =
    | CalculationFailed(cause: QuoteError)
    | MissingBrand(table: Table, brand: string)

  /** Off-Grid and Hybrid systems carry a battery; On-Grid systems do not. */
  predicate HasBattery(ty: SystemType)
  {
    ty in {OffGrid, Hybrid}
  }

  /** True when every table the quotation consults holds the selected brand. */
  predicate BrandsKnown(ty: SystemType, sel: Selection, cat: Catalog)
  {
    && sel.panelBrand in cat.panelPricePerW
    && sel.inverterBrand in cat.inverterPrice
    && (ty != OnGrid ==> sel.batteryBrand in cat.batteryPricePerKWh)
  }

  /**
   * The quotation for the selected brands.  In the order of the source:
   * the units are computed first (a zero tariff fails), then the panel and
   * inverter prices are looked up, then the battery price, only when the
   * system has a battery.
   */
  function QuoteFromCatalog(bill: int, tariff: real, ty: SystemType, sel: Selection, cat: Catalog)
    : (r: Result<Quotation, CatalogError>)
    ensures r.Ok? <==> tariff != 0.0 && BrandsKnown(ty, sel, cat)
    ensures tariff == 0.0 ==> r == Err(CalculationFailed(DivisionByZero))
    ensures tariff != 0.0 && sel.panelBrand !in cat.panelPricePerW ==>
              r == Err(MissingBrand(PanelTable, sel.panelBrand))
    ensures tariff != 0.0 && sel.panelBrand in cat.panelPricePerW
              && sel.inverterBrand !in cat.inverterPrice ==>
              r == Err(MissingBrand(InverterTable, sel.inverterBrand))
    ensures tariff != 0.0 && sel.panelBrand in cat.panelPricePerW
              && sel.inverterBrand in cat.inverterPrice
              && ty != OnGrid && sel.batteryBrand !in cat.batteryPricePerKWh ==>
              r == Err(MissingBrand(BatteryTable, sel.batteryBrand))
    ensures r.Ok? && ty != OnGrid ==>
              Ok(r.value) == Quote(bill, tariff, ty, cat.panelPricePerW[sel.panelBrand],
                                   cat.inverterPrice[sel.inverterBrand],
                                   cat.batteryPricePerKWh[sel.batteryBrand])
    ensures r.Ok? && ty == OnGrid ==>
              forall pricePerKWh: real ::
                Ok(r.value) == Quote(bill, tariff, ty, cat.panelPricePerW[sel.panelBrand],
                                     cat.inverterPrice[sel.inverterBrand], pricePerKWh)
  {
    if tariff == 0.0 then Err(CalculationFailed(DivisionByZero))
    else if sel.panelBrand !in cat.panelPricePerW then Err(MissingBrand(PanelTable, sel.panelBrand))
    else if sel.inverterBrand !in cat.inverterPrice then Err(MissingBrand(InverterTable, sel.inverterBrand))
    else if HasBattery(ty) && sel.batteryBrand !in cat.batteryPricePerKWh then
      Err(MissingBrand(BatteryTable, sel.batteryBrand))
    else
      var batteryPrice := if HasBattery(ty) then cat.batteryPricePerKWh[sel.batteryBrand] else 0.0;
      Ok(Calculate(bill, tariff, ty, cat.panelPricePerW[sel.panelBrand],
                   cat.inverterPrice[sel.inverterBrand], batteryPrice))
  }

  /**
   * The form offers only brands that are keys of the tables, so with a
   * non-zero tariff every selection it can make gives a quotation.
   */
  lemma FormSelectionsQuote(bill: int, tariff: real, ty: SystemType, sel: Selection, cat: Catalog)
    requires tariff != 0.0
    requires sel.panelBrand in cat.panelPricePerW.Keys
    requires sel.inverterBrand in cat.inverterPrice.Keys
    requires sel.batteryBrand in cat.batteryPricePerKWh.Keys
    ensures QuoteFromCatalog(bill, tariff, ty, sel, cat).Ok?
  {
  }
}
