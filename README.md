# Rent, DSCR and South Carolina tax calculators in Dafny

This project models three independent calculation components of a rental
investment calculator and proves properties of them.

- **Rent and DSCR engine** (`AIRentDSCRCalculator` in `ai_rent_dscr.py`). It
  sizes the loan from the purchase price and a down payment, with a fixed
  precedence. It computes the monthly debt service: interest-only, zero-rate
  or standard amortisation. It estimates a market rent with a heuristic
  estimator. That estimator picks a price-tier multiplier, then applies one
  adjustment per property attribute. Each adjustment may scale the rent, scale
  the confidence down, and append an assumption. From the rent it derives
  effective gross income, operating expenses, net operating income, the debt
  service coverage ratio (DSCR) and the cashflow. It then rates the DSCR
  Strong, Borderline or Weak, and composes the inputs summary, the human
  summary, the investor notes and a fixed disclaimer.
- **Regional rent table** (`get_rental_rate_for_location` in
  `sc_rental_rates.py`). It classifies the floor area into one of five size
  tiers. It matches the address against an ordered keyword list (first match
  wins, "Default SC" as the fallback). It prices the property from its area's
  rent for an 1800 sqft home and the tier's multiplier.
- **South Carolina property-tax resolver** (`SCTaxCalculator` in
  `sc_tax_calculator.py`). It detects the county from the address in three
  stages: a state marker, then an ordered city-to-county table, then the
  county names of the millage data. It looks up the county's millage rate and
  applies the fixed 6% assessment ratio. It reports `ok`, `county_not_found`
  or `missing_value`, with explicit nulls.

Files and modules:

| file | module | contents |
|---|---|---|
| `text.dfy` | `Wrappers`, `Text` | `Option`; ASCII `upper()`/`lower()`, Python's substring test `in`, `any(...)`, `str.replace` |
| `numeric.dfy` | `Numeric` | a recursive power over naturals, `min`, rounding to cents |
| `financing.dfy` | `Financing` | loan sizing, debt service, amortisation and the loan balance |
| `rent_estimator.dfy` | `RentEstimator` | the rent estimator: a specification fold over seven steps, plus the step-by-step method proved against it |
| `report.dfy` | `Report` | the risk label, the inputs and human summaries, and the investor notes |
| `ai_rent_dscr.dfy` | `AiRentDscr` | `calculate` as one function over the above, with end-to-end lemmas |
| `sc_rental_rates.dfy` | `RegionalRents` | the rate table, size tiers, ordered location matching, rate arithmetic |
| `sc_tax_calculator.dfy` | `ScTax` | county detection, millage lookup, the tax result, worked addresses |

How the source's forms are kept:

- The estimator updates the rent, the confidence and the assumptions list step
  by step. It is modelled as the method `RentEstimator.EstimateRent`. That
  method calls one method per step, and each step method is proved equal to
  one step of the specification function `RentEstimateOf`.
- The investor notes are appended to a list. They are modelled as the method
  `Report.InvestorNotes`.
- The location match is a loop with `break`. It is modelled as the method
  `RegionalRents.MatchLocation`, which has loop invariants.
- Everything else is straight-line or branching code. It is modelled as
  functions.
- Money and rates are exact reals.

## Model

| member | source | states |
|---|---|---|
| `Text.ToUpper` | sc_tax_calculator.py:74 | `str.upper()` keeps the length and maps each character through the ASCII upper-case map |
| `Text.ToLower` | ai_rent_dscr.py:345 | `str.lower()` keeps the length and maps each character through the ASCII lower-case map |
| `Text.ContainsIff` | sc_tax_calculator.py:131 | Python's `sub in s` holds exactly when `sub` occurs at some position of `s` |
| `Text.ContainsAnyIff` | sc_rental_rates.py:289 | `any(k in s for k in keywords)` holds exactly when one of the keywords occurs in `s` |
| `Text.ReplaceAllAbsent` | sc_tax_calculator.py:137 | `replace` leaves a string without the pattern unchanged |
| `Numeric.Min` | ai_rent_dscr.py:372 | `min` is one of its arguments and no larger than either |
| `Numeric.RoundHalfEven` | ai_rent_dscr.py:377 | the integer chosen is within one half of the value, and a value exactly halfway between two integers goes to the even one, as Python's `round` does |
| `Numeric.Round2` | ai_rent_dscr.py:377-380 | `round(x, 2)` is a whole number of cents within half a cent of `x` |
| `Numeric.Round2Monotone` | sc_rental_rates.py:319-320 | rounding to cents preserves order |
| `Financing.LoanAmount` | ai_rent_dscr.py:207-221 | in every branch, loan + down payment = price and down payment = percent × price; a positive amount is used as given, else a positive percent, else 20%; the loan is not floored at zero |
| `Financing.AmountOverridesPercent` | ai_rent_dscr.py:207-210 | with a positive down-payment amount, the percent argument has no effect |
| `Financing.NonPositiveAmountIgnored` | ai_rent_dscr.py:207-219 | a down-payment amount ≤ 0 gives the same loan terms as no amount |
| `Financing.FullDownPayment` | ai_rent_dscr.py:207-210 | a down payment equal to a positive price leaves a loan of 0 at 100% down |
| `Financing.AmortisedPayment` | ai_rent_dscr.py:240-248 | at a zero rate, payment × n = loan; otherwise payment × ((1+r)^n − 1) = loan × r × (1+r)^n |
| `Financing.DebtService` | ai_rent_dscr.py:232-250 | 0 for a loan ≤ 0 whatever the rate, term or mode; loan × rate/12 when interest-only; otherwise the amortised payment |
| `Financing.BalanceClosedForm` | ai_rent_dscr.py:240-248 | after k monthly payments p, r × balance = r × L × (1+r)^k − p × ((1+r)^k − 1) |
| `Financing.BalanceWithoutInterest` | ai_rent_dscr.py:243-245 | at a zero rate, the balance after k payments is L − k × p |
| `Financing.InterestOnlyKeepsBalance` | ai_rent_dscr.py:235-237 | paying the interest-only amount every month leaves the balance at L |
| `Financing.AmortisedPaymentRetiresLoan` | ai_rent_dscr.py:240-248 | the amortised payment brings the balance to exactly 0 after term × 12 payments |
| `Financing.AmortisedPaymentExceedsInterest` | ai_rent_dscr.py:235-248 | for a positive loan, rate and term, the formula is defined and the amortised payment exceeds the interest-only payment |
| `Financing.DebtServicePositive` | ai_rent_dscr.py:232-248 | a positive loan at a positive rate over a positive term has positive debt service in either mode |
| `RentEstimator.PriceTier` | ai_rent_dscr.py:277-293 | the method sets the multiplier, the base confidence and the assumption of the price tier |
| `RentEstimator.AdjustForPropertyType` | ai_rent_dscr.py:298-307 | the method's new rent, confidence and assumptions are the old ones after the property-type step |
| `RentEstimator.AdjustForBedrooms` | ai_rent_dscr.py:310-319 | the same for the bedrooms step |
| `RentEstimator.AdjustForBathrooms` | ai_rent_dscr.py:322-326 | the same for the bathrooms step |
| `RentEstimator.AdjustForSquareFootage` | ai_rent_dscr.py:329-341 | the same for the square-footage step with its price-per-sqft check |
| `RentEstimator.AdjustForCondition` | ai_rent_dscr.py:344-355 | the same for the condition step |
| `RentEstimator.AdjustForMetro` | ai_rent_dscr.py:358-365 | the same for the high-cost-metro step |
| `RentEstimator.EstimateRent` | ai_rent_dscr.py:269-382 | the step-by-step estimate equals `RentEstimateOf`: the seven steps folded in order, the ±15% range, the 0.75 cap and the rounding |
| `RentEstimator.StepsDampen` | ai_rent_dscr.py:277-365 | every step has a positive rent factor and a confidence factor in (0, 1]; the price tier starts the confidence in [0.5, 0.7] |
| `RentEstimator.RunStepsBounds` | ai_rent_dscr.py:270-365 | dampening steps keep the running confidence in (0, first factor] and a positive price's rent positive |
| `RentEstimator.ConfidenceCapNeverBinds` | ai_rent_dscr.py:371-372 | before the cap the confidence is already in (0, 0.7], so `min(confidence, 0.75)` never changes it; the reported confidence is in [0, 0.7] |
| `RentEstimator.RangeBracketsEstimate` | ai_rent_dscr.py:367-379 | for a non-negative price, 0 ≤ low ≤ estimate ≤ high after rounding |
| `RentEstimator.AssumptionsInStepOrder` | ai_rent_dscr.py:269-365 | the assumptions are the steps' notes concatenated in the order price tier, type, beds, baths, sqft, condition, metro |
| `RentEstimator.AssumptionsNeverEmpty` | ai_rent_dscr.py:322-374 | the baths and sqft steps always append, so there are at least two assumptions and the fallback text is unreachable |
| `RentEstimator.LowPriceNoted` | ai_rent_dscr.py:277-280 | the low-price note is present exactly when the price is below 100000 |
| `RentEstimator.HighPriceNoted` | ai_rent_dscr.py:290-293 | the high-price note is present exactly when the price is at least 1000000 |
| `RentEstimator.MissingTypeNoted` | ai_rent_dscr.py:305-307 | the "type not specified" note is present exactly when the type is absent or empty |
| `RentEstimator.MissingBedroomsNoted` | ai_rent_dscr.py:317-319 | the "bedrooms not specified" note is present exactly when no bed count is given |
| `RentEstimator.MissingBathroomsNoted` | ai_rent_dscr.py:324-326 | the "bathrooms not specified" note is present exactly when no bath count is given |
| `RentEstimator.MissingSquareFootageNoted` | ai_rent_dscr.py:339-341 | the "square footage not specified" note is present exactly when no sqft is given |
| `RentEstimator.MissingConditionNoted` | ai_rent_dscr.py:353-355 | the "condition not specified" note is present exactly when the condition is absent or empty |
| `RentEstimator.HighCostMetroNoted` | ai_rent_dscr.py:358-365 | the metro note is present exactly when the upper-cased address names one of the nine high-cost cities |
| `RentEstimator.StepsAtLeastFloors` | ai_rent_dscr.py:277-365 | each step's rent and confidence factors are at least fixed per-step floors |
| `RentEstimator.EstimatePositive` | ai_rent_dscr.py:277-380 | for a price of at least 2: 0 < low ≤ estimate ≤ high, and the estimate is at least 0.004845 × price less half a cent |
| `RentEstimator.ConfidenceFloor` | ai_rent_dscr.py:270-380 | the reported confidence is above 0.18 |
| `Report.RiskLabelOf` | ai_rent_dscr.py:384-391 | Strong exactly for DSCR ≥ 1.30, Borderline exactly for 1.10 ≤ DSCR < 1.30, Weak exactly below 1.10 |
| `Report.RiskLabelMonotone` | ai_rent_dscr.py:384-391 | a larger DSCR never earns a worse label |
| `Report.InputsSummaryOf` | ai_rent_dscr.py:393-406 | the summary shows the down payment and the rate as percentages that give back the fractions used, plus the address, price and term |
| `Report.HumanSummaryOf` | ai_rent_dscr.py:408-432 | the summary carries the address, the estimated rent, the DSCR and the rating it is given; the amount is \|cashflow\|, the word is "positive" exactly for cashflow ≥ 0, the two together give back the cashflow, and the closing sentence is the one for the label the DSCR earns |
| `Report.ClosingAgreesWithLabel` | ai_rent_dscr.py:425-430 | given the label its DSCR earns, the summary's closing sentence matches the label |
| `Report.ClosingDeterminesLabel` | ai_rent_dscr.py:425-430 | the three closing sentences differ, so the sentence determines the label |
| `Report.JoinEnds` | ai_rent_dscr.py:459 | `" ".join(parts)` starts with the first part and ends with the last |
| `Report.InvestorNotes` | ai_rent_dscr.py:441-459 | the method's text is the notes that apply, in order, joined with single spaces |
| `Report.NotesContents` | ai_rent_dscr.py:443-457 | 4 to 7 notes ending with the four standard ones; LOW CONFIDENCE exactly below 0.6; CAUTION exactly for DSCR < 1.10; the negative-cashflow warning exactly for a negative cashflow; the tight-margin note exactly for a cashflow in [0, 200); never both cashflow notes |
| `Report.NotesTextEnds` | ai_rent_dscr.py:443-459 | the joined text ends with the insurance sentence and starts with LOW CONFIDENCE when the confidence is below 0.6 |
| `AiRentDscr.DefaultInput` | ai_rent_dscr.py:24-39 | the defaults of `calculate`: 7%, 30 years, amortising, no vacancy, no expense ratio, no down payment |
| `AiRentDscr.CoverageOf` | ai_rent_dscr.py:95-126 | EGI = rent × (1 − vacancy); expenses = EGI × ratio + 150; NOI annual = 12 × NOI monthly; DSCR × annual debt service = NOI annual when debt service is positive, DSCR = 0 otherwise; cashflow = NOI monthly − debt service |
| `AiRentDscr.CoverageMatchesCashflow` | ai_rent_dscr.py:104-126 | 12 × cashflow = NOI annual − annual debt service; with debt to service, DSCR ≥ 1 exactly when the cashflow is non-negative, and DSCR ≥ 1.10 implies a positive cashflow |
| `AiRentDscr.PositiveIncomeCovers` | ai_rent_dscr.py:95-120 | income net of vacancy and the expense ratio that exceeds the $150 insurance gives a positive DSCR against any positive debt service |
| `AiRentDscr.Calculate` | ai_rent_dscr.py:65-197 | every field of the result is fixed: the echoed inputs (address, price, rate, term, mode, vacancy), the loan terms (loan, down-payment amount and percent), the estimate with its low and high range, confidence and assumptions, the 35% default ratio, the debt service, the coverage figures, the label of the DSCR, both summaries, the notes and the disclaimer |
| `AiRentDscr.CoveredMeansPositiveCashflow` | ai_rent_dscr.py:116-150 | a Strong or Borderline label always comes with a positive cashflow and never with the negative-cashflow warning |
| `AiRentDscr.NoLoanNoCoverage` | ai_rent_dscr.py:107-126 | with no positive loan: no debt service, DSCR 0, label Weak, the CAUTION note present, and the cashflow is the whole NOI |
| `AiRentDscr.CashPurchaseBorrowsNothing` | ai_rent_dscr.py:207-233 | a down payment equal to the price borrows nothing at 100% down and owes no debt service |
| `AiRentDscr.DefaultDownPaymentSummarised` | ai_rent_dscr.py:129-135 | with neither a positive amount nor a positive percent, the inputs summary shows 20% down |
| `AiRentDscr.ZeroVacancyIncomeIsRent` | ai_rent_dscr.py:95 | with no vacancy, the effective gross income is the estimated rent |
| `AiRentDscr.ReportedRentPositive` | ai_rent_dscr.py:74-84 | for a price of at least 2, the reported rent is positive |
| `AiRentDscr.QuarterDownScenario` | ai_rent_dscr.py:65-126 | 400000 with 25% down at 7% over 30 years, any address and attributes, the default expenses and no vacancy: the loan is 300000 and the DSCR is positive |
| `RegionalRents.SizeTierOf` | sc_rental_rates.py:220-229 | each tier holds exactly on its sqft band: below 1000, [1000, 1500), [1500, 2000), [2000, 2500), 2500 and above |
| `RegionalRents.SizeTierMonotone` | sc_rental_rates.py:220-229 | a larger floor area never falls in a smaller tier |
| `RegionalRents.Target1800Sqft` | sc_rental_rates.py:27-203 | every area's rent for 1800 sqft is between 1700 and 3600 |
| `RegionalRents.MultipliersComplete` | sc_rental_rates.py:27-203 | the multiplier table that every entry shares has all five tiers with positive factors, so the lookup at line 307 cannot fail |
| `RegionalRents.MultipliersDecrease` | sc_rental_rates.py:27-203 | the multiplier never increases from a smaller tier to a larger one |
| `RegionalRents.FirstMatchSpec` | sc_rental_rates.py:286-298 | the chosen check matches, and no earlier check does |
| `RegionalRents.FirstMatchIs` | sc_rental_rates.py:286-298 | a check that matches after only non-matching ones is the one chosen |
| `RegionalRents.NoMatchFallsBack` | sc_rental_rates.py:300-303 | when no check matches, the location is "Default SC" |
| `RegionalRents.MatchLocation` | sc_rental_rates.py:286-303 | the loop with `break` and its fallback return the first matching area, or "Default SC", with that area's table entry |
| `RegionalRents.RateFollowsMultiplier` | sc_rental_rates.py:311-312 | a smaller multiplier gives a smaller rate per sqft |
| `RegionalRents.PriceProperty` | sc_rental_rates.py:306-320 | the rate reported is target/1800 × multiplier rounded to cents, and the rent reported is sqft × the unrounded rate, rounded to cents afterwards |
| `RegionalRents.RateReportsArea` | sc_rental_rates.py:317-323 | pass-through fields: the result reports the matched area's name, the tier of the sqft and the area's 1800 sqft rent unchanged |
| `RegionalRents.GetRentalRateForLocation` | sc_rental_rates.py:206-323 | the method's result is the rate of the area the upper-cased address matches, priced for the sqft |
| `RegionalRents.BaselineAt1800` | sc_rental_rates.py:311-322 | an 1800 sqft property's rent is exactly its area's `target_1800_sqft` |
| `RegionalRents.PriceNonNegative` | sc_rental_rates.py:311-320 | non-negative targets, multipliers and sqft give a non-negative rounded rate and rent |
| `RegionalRents.RentNonNegative` | sc_rental_rates.py:315-320 | for sqft ≥ 0, the rate and the rent are non-negative in every area |
| `RegionalRents.RateDecreasesWithSize` | sc_rental_rates.py:220-312 | in any area, a larger floor area never has a higher rate per sqft |
| `RegionalRents.NoMatchIsDefault` | sc_rental_rates.py:199-203 | an address no check matches is priced as "Default SC" with baseline 2000 |
| `RegionalRents.SurfsideBeachUnreachable` | sc_rental_rates.py:236-284 | no check names "Surfside Beach", so no address resolves to that table entry |
| `RegionalRents.NorthCharlestonBeforeCharleston` | sc_rental_rates.py:252-255 | an address naming "NORTH CHARLESTON", and none of the twelve earlier keywords, is North Charleston, not Charleston |
| `RegionalRents.NorthMyrtleBeforeMyrtleBeach` | sc_rental_rates.py:258-264 | an address naming "NORTH MYRTLE", and none of the fifteen earlier checks, is North Myrtle Beach, not Myrtle Beach |
| `RegionalRents.EarlyChecksNeedLetters` | sc_rental_rates.py:238-251 | none of the twelve checks before "NORTH CHARLESTON" matches an address without the letters I, B, M and Y |
| `RegionalRents.NorthCharlestonExample` | sc_rental_rates.py:252-255 | "NORTH CHARLESTON, SC" resolves to North Charleston, although it contains "CHARLESTON" |
| `ScTax.CountyByCityAt` | sc_tax_calculator.py:130-132 | the first city of the table that occurs in the address gives the county |
| `ScTax.CountyByCityNone` | sc_tax_calculator.py:130-132 | the city stage finds nothing exactly when no city of the table occurs in the address |
| `ScTax.CountyByName` | sc_tax_calculator.py:135-140 | a county found by name is in the millage data, and its name without " County", upper-cased, occurs in the address |
| `ScTax.DetectCounty` | sc_tax_calculator.py:60-144 | a county is detected only for a non-empty address with the "SC" or "SOUTH CAROLINA" marker, and it comes from the city table or the millage data |
| `ScTax.MillageRateOf` | sc_tax_calculator.py:202-215 | a rate found is one the millage data holds for that county; a county without an entry has no rate |
| `ScTax.MonthlyTaxes` | sc_tax_calculator.py:225 | monthly taxes × 12 = annual taxes |
| `ScTax.CalculateScRentalTax` | sc_tax_calculator.py:146-236 | `missing_value`, all fields null, exactly for an absent or non-positive value; `county_not_found` exactly when no county is usable or it has no rate, with only the county possibly set; `ok` exactly when every figure is present, and then the table's own rate, ratio 0.06, taxable = value × 0.06, annual = taxable × rate, monthly × 12 = annual |
| `ScTax.CityMatchIgnoresMillage` | sc_tax_calculator.py:129-132 | when a city matches, the millage data plays no part in detection |
| `ScTax.NoMillageNeverOk` | sc_tax_calculator.py:202-213 | with empty millage data, which is what a failed load leaves, no result is `ok` |
| `ScTax.AnnualTaxesMonotone` | sc_tax_calculator.py:219-222 | at a non-negative rate, a larger value never owes less |
| `ScTax.TaxesGrowWithValue` | sc_tax_calculator.py:176-222 | raising the value of an `ok` address keeps it `ok` and never lowers its annual taxes |
| `ScTax.WestColumbiaIsNeverLexington` | sc_tax_calculator.py:84-132 | an address naming "WEST COLUMBIA" with the state marker resolves to Charleston or Richland County, never to Lexington County |
| `ScTax.MyrtleBeachCity` | sc_tax_calculator.py:84-132 | an address naming "MYRTLE BEACH", and without the letters O and G, reaches Horry County in the city stage |
| `ScTax.HiltonHeadCity` | sc_tax_calculator.py:84-132 | an address naming "HILTON HEAD", and without R, M and P, reaches Beaufort County in the city stage |
| `ScTax.TaxForCounty` | sc_tax_calculator.py:215-236 | for a positive value, a usable county and its rate, the result is `ok` with every figure given by the three formulas |
| `ScTax.NoCountyForAddress` | sc_tax_calculator.py:188-199 | for a positive value and no detected county, the result is `county_not_found` with every field null |
| `ScTax.DetectedByCity` | sc_tax_calculator.py:74-132 | with the state marker, the county of the first matching city is detected |
| `ScTax.NotDetectedWithoutMarker` | sc_tax_calculator.py:76-78 | without the state marker, no county is detected |
| `ScTax.NoMarkerWithoutC` | sc_tax_calculator.py:77 | an upper-cased address without the letter C has no state marker |
| `ScTax.ColumbiaCity` | sc_tax_calculator.py:84-132 | an address naming "COLUMBIA" but not "CHARLESTON" reaches Richland County in the city stage |
| `ScTax.MyrtleBeachIsHorry` | sc_tax_calculator.py:88 | "Myrtle Beach, SC 29577" is in Horry County whatever the millage data |
| `ScTax.MyrtleBeachTax` | test_sc_tax.py:230-233 | 400000 in "Myrtle Beach, SC 29577" is `ok` for Horry County with taxable value 24000, annual 24000 × rate and a twelfth of that monthly |
| `ScTax.HiltonHeadIslandIsBeaufort` | sc_tax_calculator.py:94 | "Hilton Head Island, SC" is in Beaufort County whatever the millage data |
| `ScTax.HiltonHeadIslandTax` | test_sc_tax.py:86-93 | 600000 in "Hilton Head Island, SC" is `ok` for Beaufort County with taxable value 36000 |
| `ScTax.WestColumbiaIsRichland` | sc_tax_calculator.py:84-132 | "West Columbia, SC" is in Richland County: "COLUMBIA" (line 86) is tried before "WEST COLUMBIA" (line 116) |
| `ScTax.AustinIsNotFound` | test_sc_tax.py:63-70 | 400000 in "123 Main St, Austin, TX 78701" is `county_not_found` with every field null |

## Left out

- The UI and HTTP layers (`streamlit_app.py`, `app.py`, `app_react.py`), `examples.py` and the `__main__` demos only present results. The labels the UI expects ("Golden", "Excellent") are never produced by the rating and are not modelled.
- `calculate_ai_rent_dscr` and `calculate_ai_rent_dscr_dict` (ai_rent_dscr.py:462-488) are thin wrappers. They serialise to JSON or build a fresh calculator. `calculate_sc_tax` (sc_tax_calculator.py:239-251) is a wrapper in the same way.
- `SCTaxCalculator.__init__` and `_load_millage_data` (sc_tax_calculator.py:32-58) are file I/O and JSON parsing. The millage data is a parameter instead: an ordered sequence of (county, optional rate) pairs in file order. The empty sequence stands for a missing or invalid file. No actual rates are part of the model.
- Floating point is not modelled. Amounts are exact reals, and `round(x, 2)` is half-even rounding of the exact value (`Numeric.Round2`), not of a binary float.
- Number formatting in the summaries (ai_rent_dscr.py:402-423) is not modelled. Both summaries are records of the values they show and of the sentence chosen, not rendered text.
- The assumptions are a sequence of entries that carry the attribute values the text interpolates. They are not joined into the "; "-separated string of ai_rent_dscr.py:374. The list is never empty (`RentEstimator.AssumptionsNeverEmpty`), so the fallback text is unreachable.
- `upper()` and `lower()` are modelled for ASCII letters only. Other characters are left unchanged.
- `**kwargs` (ai_rent_dscr.py:40) silently absorbs extra arguments. It has no effect and is not modelled.
- A negative `term_years` is not modelled: the term is a natural number.
- Financing.DebtService: requires `AmortisationDefined` on the amortising path for a positive loan. A zero term raises ZeroDivisionError at ai_rent_dscr.py:244 (zero rate) or :248, as does a rate with (1+r)^n = 1 at :248. That error path is not modelled.
- AiRentDscr.Calculate: requires `Computable`, and each of its three conjuncts excludes a ZeroDivisionError that is not modelled. A zero price with a positive down-payment amount raises at ai_rent_dscr.py:209. A given `sqft` of 0 raises at ai_rent_dscr.py:332. A zero term, or a rate with (1+r)^n = 1, raises at ai_rent_dscr.py:244/248 (`AmortisationDefined`).
- Financing.LoanAmount: requires a non-zero price when a positive down-payment amount is given, because `down_payment_amount / purchase_price` raises ZeroDivisionError at ai_rent_dscr.py:209 for a zero price. That error path is not modelled.
- RentEstimator.EstimateRent: requires `sqft` to be absent or non-zero, as do `RentEstimator.AdjustForSquareFootage` and `RentEstimator.SquareFootageStep`. A `sqft` of 0 passes the `is not None` test at ai_rent_dscr.py:329 and then raises ZeroDivisionError at ai_rent_dscr.py:332. That error path is not modelled.
- The ZIP-code search at sc_tax_calculator.py:81 is computed and never used, so it is left out.
- A `millage_rate` that is present but null or not a number would raise in Python at sc_tax_calculator.py:222. It is not modelled. An entry without a rate is `None`, which gives `county_not_found` as at lines 204-213.
- Several tests read `sc_tax_info`, `property_tax_monthly` and other fields (test_sc_tax.py:101-209, `test_automatic_tax.py`, `test_sc_integration.py`). The `calculate` shown (ai_rent_dscr.py:162-197) returns none of them. The model follows the code: there is no tax integration in `calculate`.
- The model follows the code wherever the general design description of the system differs from it:
  - The loan principal is not floored at zero.
  - `county_not_found` keeps the county name when the county has no rate.
  - Insurance is a fixed $150 with no HOA input.
  - The rent estimator has no amenity signals, no capped adjustment sum and no area-based blend.
  - There is no postal-code fallback.
  - There is no strict or permissive policy for an unresolved county.
- RentEstimator.EstimatePositive: states a positive estimate only for prices of at least 2, because rounding to cents (ai_rent_dscr.py:377) can report 0.00 for smaller prices.
- AiRentDscr.ReportedRentPositive: the same lower bound of 2 on the price, for the same reason.
- RentEstimator.RangeBracketsEstimate: states the ordering low ≤ estimate ≤ high of the rounded figures, not the exact factors 0.85 and 1.15. The factors hold before rounding (ai_rent_dscr.py:368-369) and are not preserved by it.
- ScTax.MyrtleBeachTax: the millage rate is a parameter, not Horry's 0.1923, because the rates live in a JSON file that is not part of this model. The same holds for `ScTax.HiltonHeadIslandTax`.
- ScTax.HiltonHeadIslandTax: uses the address "Hilton Head Island, SC" rather than the test's full street address, which resolves through the same "HILTON HEAD" entry.
- AiRentDscr.QuarterDownScenario: proves that the DSCR is positive, not the exact payment near 1995.91, which needs a 360-fold power.
