/**
 * `AIRentDSCRCalculator.calculate`: loan sizing, the rent estimate, income
 * and expenses, debt service, DSCR, the risk label, cashflow, and the
 * summary and notes, as one straight-line computation over the inputs.
 */
module AiRentDscr {
  import opened Wrappers
  import opened Numeric
  import opened Financing
  import opened RentEstimator
  import opened Report

  /** The calculator's `mode` field. */
  const Mode: string := "ai_rent_and_dscr"
  /** Operating expenses as a share of income when the caller gives no ratio. */
  const DefaultOperatingExpenseRatio: real := 0.35
  /** The flat monthly insurance estimate added to operating expenses. */
  const InsuranceMonthly: real := 150.0

  const Disclaimer: string :=
    "IMPORTANT: This is a rough AI-powered estimate based on general market "
    + "patterns and assumptions. It is NOT a substitute for professional property "
    + "appraisal, rental market analysis, or underwriting. Actual rental income may "
    + "vary significantly based on specific property features, local market conditions, "
    + "property management, and numerous other factors. Do NOT make investment decisions "
    + "based solely on this estimate. Always conduct thorough due diligence including "
    + "professional inspections, appraisals, and market research."

  /** The arguments of `calculate`; absent optional arguments are `None`. */
  datatype CalculationInput = CalculationInput(
    address: string,
    purchasePrice: real,
    downPaymentAmount: Option<real>,
    downPaymentPercent: Option<real>,
    interestRateAnnual: real,
    termYears: nat,
    interestOnly: bool,
    vacancyRate: real,
    operatingExpenseRatio: Option<real>,
    propertyType: Option<string>,
    beds: Option<int>,
    baths: Option<real>,
    sqft: Option<int>,
    condition: Option<string>)

  /** A call that passes only the address and the price: 7% over 30 years, amortising, no vacancy. */
  function DefaultInput(address: string, purchasePrice: real): (input: CalculationInput)
    ensures input.interestRateAnnual == 0.07 && input.termYears == 30 && !input.interestOnly
    ensures input.vacancyRate == 0.0 && input.operatingExpenseRatio.None?
    ensures input.downPaymentAmount.None? && input.downPaymentPercent.None?
  {
    CalculationInput(address, purchasePrice, None, None, 0.07, 30, false, 0.0, None, None, None, None, None, None)
  }

  /** The fields of the returned dictionary that the calculation determines. */
  datatype CalculationResult = CalculationResult(
    mode: string,
    address: string,
    purchasePrice: real,
    downPaymentAmount: real,
    downPaymentPercent: real,
    loanAmount: real,
    interestRateAnnual: real,
    termYears: nat,
    interestOnly: bool,
    estimatedMonthlyRent: real,
    lowEstimateRent: real,
    highEstimateRent: real,
    vacancyRate: real,
    operatingExpenseRatio: real,
    effectiveGrossIncomeMonthly: real,
    operatingExpensesMonthly: real,
    noiAnnual: real,
    monthlyDebtService: real,
    annualDebtService: real,
    dscr: real,
    riskLabel: RiskLabel,
    monthlyCashflow: real,
    inputsSummary: InputsSummary,
    humanSummary: HumanSummary,
    confidenceScore: real,
    assumptions: seq<Assumption>,
    notesForInvestor: string,
    disclaimer: string)

  function LoanTermsOf(input: CalculationInput): LoanTerms
    requires !AmountGiven(input.downPaymentAmount) || input.purchasePrice != 0.0
  {
    LoanAmount(input.purchasePrice, input.downPaymentAmount, input.downPaymentPercent)
  }

  /**
   * What `calculate` relies on: a non-zero price when a down-payment amount
   * is divided by it, a non-zero square footage when one is given, and a
   * payment formula with a non-zero divisor when a positive loan amortises.
   */
  predicate Computable(input: CalculationInput) {
    && (!AmountGiven(input.downPaymentAmount) || input.purchasePrice != 0.0)
    && (input.sqft.None? || input.sqft.value != 0)
    && (LoanTermsOf(input).loanAmount <= 0.0 || input.interestOnly
        || AmortisationDefined(input.interestRateAnnual, input.termYears))
  }

  function EstimateOf(input: CalculationInput): RentEstimate
    requires input.sqft.None? || input.sqft.value != 0
  {
    RentEstimateOf(input.address, input.purchasePrice, input.propertyType, input.beds, input.baths, input.sqft,
                   input.condition)
  }

  /** The income, expense and coverage figures of `calculate`, steps 4 to 10. */
  datatype Coverage = Coverage(
    effectiveGrossIncomeMonthly: real,
    operatingExpensesMonthly: real,
    noiMonthly: real,
    noiAnnual: real,
    annualDebtService: real,
    dscr: real,
    monthlyCashflow: real)

  /**
   * Income net of vacancy, expenses as a share of it plus insurance, net
   * operating income, and its coverage of the debt service (0 when there is
   * no debt to service).
   */
  function CoverageOf(estimatedMonthlyRent: real, vacancyRate: real, operatingExpenseRatio: real,
                      monthlyDebtService: real): (c: Coverage)
    ensures c.effectiveGrossIncomeMonthly == estimatedMonthlyRent * (1.0 - vacancyRate)
    ensures c.operatingExpensesMonthly == c.effectiveGrossIncomeMonthly * operatingExpenseRatio + InsuranceMonthly
    ensures c.noiAnnual == 12.0 * c.noiMonthly
    ensures c.noiMonthly == c.effectiveGrossIncomeMonthly - c.operatingExpensesMonthly
    ensures c.annualDebtService == 12.0 * monthlyDebtService
    ensures c.annualDebtService > 0.0 ==> c.dscr * c.annualDebtService == c.noiAnnual
    ensures c.annualDebtService <= 0.0 ==> c.dscr == 0.0
    ensures c.monthlyCashflow == c.noiMonthly - monthlyDebtService
  {
    var egi := estimatedMonthlyRent * (1.0 - vacancyRate);
    var operatingExpenses := egi * operatingExpenseRatio + InsuranceMonthly;
    var noiMonthly := egi - operatingExpenses;
    var noiAnnual := noiMonthly * 12.0;
    var annualDebtService := monthlyDebtService * 12.0;
    var dscr := if annualDebtService > 0.0 then noiAnnual / annualDebtService else 0.0;
    Coverage(egi, operatingExpenses, noiMonthly, noiAnnual, annualDebtService, dscr, noiMonthly - monthlyDebtService)
  }

  /**
   * With debt to service, a DSCR of at least one is exactly a non-negative
   * cashflow, and a DSCR of at least 1.10 a positive one.
   */
  lemma CoverageMatchesCashflow(estimatedMonthlyRent: real, vacancyRate: real, operatingExpenseRatio: real,
                                monthlyDebtService: real)
    ensures var c := CoverageOf(estimatedMonthlyRent, vacancyRate, operatingExpenseRatio, monthlyDebtService);
            && 12.0 * c.monthlyCashflow == c.noiAnnual - c.annualDebtService
            && (c.annualDebtService > 0.0 ==> (c.dscr >= 1.0 <==> c.monthlyCashflow >= 0.0))
            && (c.annualDebtService > 0.0 && c.dscr >= BorderlineThreshold ==> c.monthlyCashflow > 0.0)
  {
    var c := CoverageOf(estimatedMonthlyRent, vacancyRate, operatingExpenseRatio, monthlyDebtService);
    var a := c.annualDebtService;
    if a > 0.0 {
      assert c.noiAnnual - a == (c.dscr - 1.0) * a;
      ProductSign(c.dscr - 1.0, a);
    }
  }

  /** A positive factor keeps the sign of the other. */
  lemma ProductSign(x: real, a: real)
    requires a > 0.0
    ensures x >= 0.0 <==> x * a >= 0.0
    ensures x > 0.0 <==> x * a > 0.0
  {
    if x >= 0.0 {
      assert x * a >= 0.0;
    } else {
      assert x * a < 0.0;
    }
    if x > 0.0 {
      assert x * a > 0.0;
    } else {
      assert x * a <= 0.0;
    }
  }

  /**
   * Income that, net of vacancy and the expense ratio, exceeds the flat
   * insurance cost earns a positive DSCR against any positive debt service.
   */
  lemma PositiveIncomeCovers(estimatedMonthlyRent: real, vacancyRate: real, operatingExpenseRatio: real,
                             monthlyDebtService: real)
    requires monthlyDebtService > 0.0
    requires estimatedMonthlyRent * (1.0 - vacancyRate) * (1.0 - operatingExpenseRatio) > InsuranceMonthly
    ensures CoverageOf(estimatedMonthlyRent, vacancyRate, operatingExpenseRatio, monthlyDebtService).dscr > 0.0
  {
    var c := CoverageOf(estimatedMonthlyRent, vacancyRate, operatingExpenseRatio, monthlyDebtService);
    assert c.noiMonthly == c.effectiveGrossIncomeMonthly * (1.0 - operatingExpenseRatio) - InsuranceMonthly;
    PositiveQuotient(c.noiAnnual, c.annualDebtService);
  }

  /**
   * `calculate`: loan sizing, the rent estimate, the expense ratio (35% when
   * none is given), coverage, the label, the summary and the notes.
   */
  function Calculate(input: CalculationInput): (r: CalculationResult)
    requires Computable(input)
    ensures r.mode == Mode && r.disclaimer == Disclaimer
    ensures r.loanAmount == LoanTermsOf(input).loanAmount
    ensures r.loanAmount + r.downPaymentAmount == input.purchasePrice
    ensures r.address == input.address && r.purchasePrice == input.purchasePrice
    ensures r.interestRateAnnual == input.interestRateAnnual && r.termYears == input.termYears
    ensures r.interestOnly == input.interestOnly && r.vacancyRate == input.vacancyRate
    ensures r.downPaymentAmount == LoanTermsOf(input).downPaymentAmount
    ensures r.downPaymentPercent == LoanTermsOf(input).downPaymentPercent
    ensures r.estimatedMonthlyRent == EstimateOf(input).estimated
    ensures r.lowEstimateRent == EstimateOf(input).low && r.highEstimateRent == EstimateOf(input).high
    ensures r.confidenceScore == EstimateOf(input).confidence && r.assumptions == EstimateOf(input).assumptions
    ensures input.operatingExpenseRatio.None? ==> r.operatingExpenseRatio == DefaultOperatingExpenseRatio
    ensures input.operatingExpenseRatio.Some? ==> r.operatingExpenseRatio == input.operatingExpenseRatio.value
    ensures r.monthlyDebtService == DebtService(r.loanAmount, input.interestRateAnnual, input.termYears, input.interestOnly)
    ensures var c := CoverageOf(r.estimatedMonthlyRent, input.vacancyRate, r.operatingExpenseRatio, r.monthlyDebtService);
            && r.effectiveGrossIncomeMonthly == c.effectiveGrossIncomeMonthly
            && r.operatingExpensesMonthly == c.operatingExpensesMonthly
            && r.noiAnnual == c.noiAnnual && r.annualDebtService == c.annualDebtService
            && r.dscr == c.dscr && r.monthlyCashflow == c.monthlyCashflow
    ensures r.riskLabel == RiskLabelOf(r.dscr)
    ensures r.inputsSummary == InputsSummaryOf(input.address, input.purchasePrice, r.downPaymentPercent,
                                               input.interestRateAnnual, input.termYears)
    ensures r.humanSummary == HumanSummaryOf(input.address, r.estimatedMonthlyRent, r.dscr, r.monthlyCashflow, r.riskLabel)
    ensures r.notesForInvestor == Join(NotesFor(r.dscr, r.monthlyCashflow, r.confidenceScore), " ")
  {
    var terms := LoanTermsOf(input);
    var estimate := EstimateOf(input);
    var ratio := if input.operatingExpenseRatio.None? then DefaultOperatingExpenseRatio else input.operatingExpenseRatio.value;
    var monthlyDebtService := DebtService(terms.loanAmount, input.interestRateAnnual, input.termYears, input.interestOnly);
    var c := CoverageOf(estimate.estimated, input.vacancyRate, ratio, monthlyDebtService);
    var riskLabel := RiskLabelOf(c.dscr);
    CalculationResult(
      Mode, input.address, input.purchasePrice, terms.downPaymentAmount, terms.downPaymentPercent, terms.loanAmount,
      input.interestRateAnnual, input.termYears, input.interestOnly,
      estimate.estimated, estimate.low, estimate.high, input.vacancyRate, ratio,
      c.effectiveGrossIncomeMonthly, c.operatingExpensesMonthly, c.noiAnnual,
      monthlyDebtService, c.annualDebtService, c.dscr, riskLabel, c.monthlyCashflow,
      InputsSummaryOf(input.address, input.purchasePrice, terms.downPaymentPercent, input.interestRateAnnual,
                      input.termYears),
      HumanSummaryOf(input.address, estimate.estimated, c.dscr, c.monthlyCashflow, riskLabel),
      estimate.confidence, estimate.assumptions,
      Join(NotesFor(c.dscr, c.monthlyCashflow, estimate.confidence), " "),
      Disclaimer)
  }

  /**
   * A Strong or Borderline label always comes with a positive cashflow and
   * never with the negative-cashflow warning.
   */
  lemma CoveredMeansPositiveCashflow(input: CalculationInput)
    requires Computable(input)
    ensures var r := Calculate(input);
            r.riskLabel != Weak ==>
              r.monthlyCashflow > 0.0 && NegativeCashflowNote !in NotesFor(r.dscr, r.monthlyCashflow, r.confidenceScore)
  {
    var r := Calculate(input);
    CoverageMatchesCashflow(r.estimatedMonthlyRent, input.vacancyRate, r.operatingExpenseRatio, r.monthlyDebtService);
    NotesContents(r.dscr, r.monthlyCashflow, r.confidenceScore);
  }

  /**
   * Without a positive loan there is no debt service: the DSCR is reported
   * as 0, the label is Weak, the caution note appears, and the cashflow is
   * the whole net operating income.
   */
  lemma NoLoanNoCoverage(input: CalculationInput)
    requires Computable(input)
    requires LoanTermsOf(input).loanAmount <= 0.0
    ensures var r := Calculate(input);
            && r.monthlyDebtService == 0.0 && r.annualDebtService == 0.0 && r.dscr == 0.0
            && r.riskLabel == Weak
            && CautionNote in NotesFor(r.dscr, r.monthlyCashflow, r.confidenceScore)
            && 12.0 * r.monthlyCashflow == r.noiAnnual
  {
    var r := Calculate(input);
    NotesContents(r.dscr, r.monthlyCashflow, r.confidenceScore);
  }

  /** A cash purchase, a down payment equal to the price, borrows nothing and owes no debt service. */
  lemma CashPurchaseBorrowsNothing(input: CalculationInput)
    requires input.purchasePrice > 0.0 && input.downPaymentAmount == Some(input.purchasePrice)
    requires input.sqft.None? || input.sqft.value != 0
    ensures Computable(input)
    ensures var r := Calculate(input);
            r.loanAmount == 0.0 && r.monthlyDebtService == 0.0 && r.downPaymentPercent == 1.0
  {
    FullDownPayment(input.purchasePrice, input.downPaymentPercent);
  }

  /**
   * The inputs summary shows the down payment the loan was sized with: 20%
   * when the caller gives neither a positive amount nor a positive percentage.
   */
  lemma DefaultDownPaymentSummarised(input: CalculationInput)
    requires Computable(input)
    requires !AmountGiven(input.downPaymentAmount) && !PercentGiven(input.downPaymentPercent)
    ensures Calculate(input).inputsSummary.downPaymentPercentage == 20.0
  {
  }

  /** With no vacancy the effective gross income is the estimated rent. */
  lemma ZeroVacancyIncomeIsRent(input: CalculationInput)
    requires Computable(input) && input.vacancyRate == 0.0
    ensures Calculate(input).effectiveGrossIncomeMonthly == Calculate(input).estimatedMonthlyRent
  {
  }

  /** For a purchase price of at least 2 the reported rent is positive. */
  lemma ReportedRentPositive(input: CalculationInput)
    requires Computable(input) && input.purchasePrice >= 2.0
    ensures Calculate(input).estimatedMonthlyRent > 0.0
  {
    EstimatePositive(input.address, input.purchasePrice, input.propertyType, input.beds, input.baths, input.sqft,
                     input.condition);
  }

  /**
   * The end-to-end scenario: a 400000 purchase with 25% down at 7% over 30
   * years, with any address and attributes and the default expenses, borrows
   * 300000 and covers part of its debt, a DSCR above zero.
   */
  lemma QuarterDownScenario(input: CalculationInput)
    requires input.purchasePrice == 400000.0 && input.downPaymentAmount.None?
    requires input.downPaymentPercent == Some(0.25)
    requires input.interestRateAnnual == 0.07 && input.termYears == 30 && !input.interestOnly
    requires input.vacancyRate == 0.0 && input.operatingExpenseRatio.None?
    requires input.sqft.None? || input.sqft.value != 0
    ensures Computable(input)
    ensures Calculate(input).loanAmount == 300000.0
    ensures Calculate(input).dscr > 0.0
  {
    QuarterDownLoan(input);
    QuarterDownCoverage(input, DebtService(LoanTermsOf(input).loanAmount, input.interestRateAnnual, input.termYears,
                                           input.interestOnly));
  }

  /** The scenario's loan: 300000 borrowed on terms the payment formula accepts. */
  lemma QuarterDownLoan(input: CalculationInput)
    requires input.purchasePrice == 400000.0 && input.downPaymentAmount.None?
    requires input.downPaymentPercent == Some(0.25)
    requires input.interestRateAnnual == 0.07 && input.termYears == 30 && !input.interestOnly
    requires input.sqft.None? || input.sqft.value != 0
    ensures Computable(input) && LoanTermsOf(input).loanAmount == 300000.0
    ensures DebtService(LoanTermsOf(input).loanAmount, input.interestRateAnnual, input.termYears, input.interestOnly) > 0.0
  {
    assert LoanTermsOf(input).loanAmount == 300000.0;
    DebtServicePositive(LoanTermsOf(input).loanAmount, input.interestRateAnnual, input.termYears, input.interestOnly);
  }

  /** The scenario's coverage: the estimated rent, net of expenses, leaves a positive DSCR. */
  lemma QuarterDownCoverage(input: CalculationInput, debtService: real)
    requires input.purchasePrice == 400000.0
    requires input.sqft.None? || input.sqft.value != 0
    requires debtService > 0.0
    ensures CoverageOf(EstimateOf(input).estimated, 0.0, DefaultOperatingExpenseRatio, debtService).dscr > 0.0
  {
    EstimateFloor(input);
    PositiveIncomeCovers(EstimateOf(input).estimated, 0.0, DefaultOperatingExpenseRatio, debtService);
  }

  /** The estimate's floor in terms of the price alone. */
  lemma EstimateFloor(input: CalculationInput)
    requires input.sqft.None? || input.sqft.value != 0
    requires input.purchasePrice >= 2.0
    ensures EstimateOf(input).estimated >= input.purchasePrice * 0.004845 - 0.005
  {
    EstimatePositive(input.address, input.purchasePrice, input.propertyType, input.beds, input.baths, input.sqft,
                     input.condition);
  }
}
