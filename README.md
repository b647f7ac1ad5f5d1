# Solar quotation calculator — verified model

This project models the quotation calculation of the Bharat Solar Shakti
residential solar calculator. The calculator takes a customer's average
monthly electricity bill, the DISCOM tariff per unit, the system type
(On-Grid, Off-Grid or Hybrid) and the prices of the selected panel, inverter
and battery brands. From these it derives:

- the recommended system size in kW (the least whole kW that covers the
  monthly units, at 120 units per kW per month) and the roof area;
- the panel, inverter, balance-of-system (BOS) and battery costs and their
  total;
- the tiered central subsidy, the capped state subsidy and the net payable
  amount;
- the monthly and annual savings, the payback period and the ROI. The
  payback and ROI may be undefined.

Modules:

- `Wrappers` (`wrappers.dfy`): `Option` (Python's `None`) and `Result`.
- `Rounding` (`rounding.dfy`): Python's `round(x, 1)` on exact values. It
  gives the nearest multiple of 0.1, and at a tie the even one.
- `SolarQuote` (`quotation.dfy`): the calculation. It is one function per
  step of the source, and `Calculate`/`Quote` chain them together.
  `IsQuotationFor` is an independent, relational description of a correct
  quotation, grouped into sizing, costs, subsidies and financials.
  `Quote` is proved to meet it (its `ensures`), and `QuoteIsUnique` proves
  that it admits no other quotation.
- `PriceCatalog` (`catalog.dfy`): looking up the selected brands in the three
  brand-to-price tables, then quoting.

Amounts the source computes as Python integers are `int`: size, roof area,
BOS cost and the two subsidies. Amounts it computes as floats are exact
`real`s. The form's bounds (a bill of 500 to 50000, a tariff of 1.0 to 15.0)
are not preconditions of the calculation, which is total. They are
hypotheses of the lemmas that need them (`SystemKwInRange`, `QuoteInRange`,
`PaybackDefinedInRange`, `NetPayableCanBeNegative`).

Points where the model follows the code closely:

- The code does not clamp the size at zero (app.py:45), and neither does
  `SystemKw`. Within the form's bounds the size is at least 1
  (`SystemKwInRange`).
- The code has a separate `== 3` branch for the central subsidy (app.py:56-57)
  that gives the same 78000 as the branch for larger systems. `CentralSubsidy`
  keeps all three branches.
- A zero tariff makes line 44 raise a division error. `Quote` returns
  `Err(DivisionByZero)` exactly then.
- The code never checks that prices are positive, so no price carries a
  precondition.

## Model

| member | source | states |
|---|---|---|
| SolarQuote.MonthlyUnits | app.py:44 | the monthly units are the quantity that costs the bill at the tariff (units × tariff = bill) |
| SolarQuote.SystemKw | app.py:45 | the size written as `-(-units // 120)` covers the units (120·kW ≥ units) and one kW less would not |
| SolarQuote.SystemKwIsLeast | app.py:45 | every whole size covering the units is at least the chosen size, so the chosen size is the least one |
| SolarQuote.SystemKwUnique | app.py:45 | the least covering size is unique: any k with 120k ≥ units > 120(k−1) is the chosen size |
| SolarQuote.SystemKwMonotone | app.py:45 | more monthly units never give a smaller system |
| SolarQuote.SystemKwGrowsWithBill | app.py:44-45 | at a fixed positive tariff, a larger bill never gives a smaller system |
| SolarQuote.SystemKwInRange | app.py:32-45 | for a bill in 500..50000 and a tariff in 1.0..15.0 the size lies in 1..417 kW |
| SolarQuote.RoofSize | app.py:46 | the roof area is a whole multiple of 100 sqft and gives back the size at 100 sqft per kW (the `roofSize` clause of `SizingHolds`) |
| SolarQuote.PanelCost | app.py:48 | the panel cost is the size in watts (1000 per kW) times the price per watt (the `panelCost` clause of `CostsHold`) |
| SolarQuote.BosCost | app.py:50 | the BOS cost is a whole multiple of 10000 and gives back the size at 10000 per kW (the `bosCost` clause of `CostsHold`) |
| SolarQuote.BatteryCost | app.py:51 | the battery cost is 0 for On-Grid and 2 kWh per kW at the battery price for Off-Grid and Hybrid (the `batteryCost` clauses of `CostsHold`) |
| SolarQuote.TotalCost | app.py:52 | the total is exactly panel + inverter + BOS + battery, with no rounding (the `totalCost` clause of `CostsHold`) |
| SolarQuote.MonthlySavings | app.py:64 | the monthly savings are 70 per cent of the bill (the `monthlySavings` clause of `FinancialsHold`) |
| SolarQuote.AnnualSavings | app.py:65 | the annual savings are twelve months of monthly savings (the `annualSavings` clause of `FinancialsHold`) |
| SolarQuote.BatteryCostOnGrid | app.py:51 | an On-Grid system has battery cost 0 whatever the battery price |
| SolarQuote.BatteryCostWithStorage | app.py:51 | Off-Grid and Hybrid systems pay 2 kWh per kW at the battery price |
| SolarQuote.CentralSubsidy | app.py:54-59 | the central subsidy never exceeds 78000 and is exactly 78000 for every size of 3 kW or more |
| SolarQuote.CentralSubsidyLowTier | app.py:54-55 | up to 2 kW the central subsidy is 30000 per kW |
| SolarQuote.CentralSubsidyMonotone | app.py:54-59 | a larger system never receives a smaller central subsidy |
| SolarQuote.StateSubsidy | app.py:61 | the state subsidy is the minimum of 15000 per kW and 30000: it is at most both and equals one |
| SolarQuote.StateSubsidyTiers | app.py:61 | up to 2 kW the state subsidy is 15000 per kW; from 2 kW on it is the 30000 cap |
| SolarQuote.StateSubsidyMonotone | app.py:61 | a larger system never receives a smaller state subsidy |
| SolarQuote.NetPayable | app.py:62 | net payable plus both subsidies is the total cost, with no clamping at zero |
| SolarQuote.Payback | app.py:66 | payback is defined if and only if the annual savings are positive, and is then within 0.05 years of net payable / annual savings |
| SolarQuote.Roi | app.py:67 | ROI is defined if and only if net payable is positive, and is then within 0.05 of annual savings / net payable × 100 |
| SolarQuote.Calculate | app.py:44-67 | for a non-zero tariff the step-by-step calculation meets the relational description of a quotation (sizing, cost sum, subsidy tiers, cap, net payable, savings, payback and ROI definedness) |
| SolarQuote.Quote | app.py:44-67 | the calculation fails (DivisionByZero) if and only if the tariff is zero, and otherwise gives a quotation meeting the relational description |
| SolarQuote.UnitsDetermined | app.py:44 | at a non-zero tariff only one unit count costs the bill |
| SolarQuote.SizingDetermined | app.py:44-46 | the sizing relations fix the units, the size and the roof area |
| SolarQuote.CostsDetermined | app.py:48-52 | for one size the cost relations fix every cost and the total |
| SolarQuote.SubsidiesDetermined | app.py:54-62 | for one size and total the subsidy relations fix both subsidies and the net payable amount |
| SolarQuote.FinancialsDetermined | app.py:64-67 | for one net payable amount the financial relations fix savings, payback and ROI |
| SolarQuote.QuoteIsUnique | app.py:44-67 | any quotation meeting the relational description is the one Quote returns |
| SolarQuote.PaybackDefinedInRange | app.py:64-66 | for inputs within the form's bounds, a quotation exists and its payback is defined |
| SolarQuote.QuoteInRange | app.py:44-61 | within the form's bounds: size 1..417 kW, roof 100..41700 sqft, subsidies together 45000..108000 |
| SolarQuote.OnGridIgnoresBatteryPrice | app.py:51 | an On-Grid quotation does not depend on the battery price |
| SolarQuote.NetPayableCanBeNegative | app.py:62-67 | some inputs within the form's bounds, with positive prices, have a negative net payable, and their ROI is undefined |
| SolarQuote.ExampleSizing | app.py:44-46 | a bill of 4000 at a tariff of 7.5 gives 5 kW and 500 sqft |
| SolarQuote.ExampleHybridBattery | app.py:51 | that 5 kW system as Hybrid with batteries at 20000 per kWh pays 200000 for them |
| Rounding.RoundHalfEven | app.py:66-67 | round gives an integer within one half of its argument, and the even one at a tie |
| Rounding.RoundHalfEvenIsNearest | app.py:66-67 | no integer is nearer to the argument than the rounded value |
| Rounding.RoundHalfEvenUnique | app.py:66-67 | an integer strictly within one half of the argument is the rounded value |
| Rounding.RoundHalfEvenTie | app.py:66-67 | at a tie the even neighbour is chosen |
| Rounding.RoundHalfEvenMonotone | app.py:66-67 | rounding is monotone |
| Rounding.RoundTenth | app.py:66-67 | round(x, 1) is a multiple of 0.1 within 0.05 of x, and at a tie the even tenth (round(0.25, 1) is 0.2) |
| Rounding.RoundTenthIsNearest | app.py:66-67 | no multiple of 0.1 is nearer to x than round(x, 1) |
| Rounding.RoundTenthOfTenth | app.py:66-67 | a value with one decimal is left unchanged by round(x, 1) |
| PriceCatalog.QuoteFromCatalog | app.py:44-51 | a quotation is produced if and only if the tariff is non-zero and every table consulted holds the selected brand (the battery table only for Off-Grid and Hybrid). The failures come in source order: a zero tariff first, then a missing panel brand, then a missing inverter brand, then a missing battery brand. The result is the quotation at the prices found, and an On-Grid result holds for any battery price |
| PriceCatalog.FormSelectionsQuote | app.py:37-51 | brands chosen from the tables' keys, as the form offers them, always give a quotation at a non-zero tariff |

## Left out

- Loading the price tables from the spreadsheet (app.py:8-14) is file I/O and is left out. The tables are the `Catalog` maps given as a parameter. If a brand occurs twice in a sheet, the last price wins; the model does not capture this.
- The page setup, sidebar widgets and result display (app.py:19-39, app.py:72-93) are UI and are left out. The form's ranges appear only as lemma hypotheses.
- PDF generation (app.py:98-178) and the export/download button (app.py:183-189) are presentation and file I/O, and are left out.
- The `fpdf2` import (app.py:3) is unused. The customer name and brand names are only echoed into the output. Neither is modelled.
- Floating point is left out: all arithmetic is on exact reals. The model does not capture rounding error in `monthly_bill / tariff`, `* 0.7` or the float floor division. `round(..., 1)` is modelled on the exact value, not on the float nearest it, and its result is the exact tenth rather than the nearest float.
- SolarQuote.Payback: its own contract bounds the payback to within 0.05 of the exact quotient rather than naming the value. The exact value (round half to even to one decimal) is stated in `FinancialsHold`, which `Quote` is proved to meet.
- SolarQuote.Roi: the same holds for ROI.
