/**
 * Loan sizing and monthly debt service of the rent and DSCR calculator
 * (`_calculate_loan_amount` and `_calculate_debt_service`), with the
 * amortisation schedule that the payment formula is meant to retire.
 */
module Financing {
  import opened Wrappers
  import opened Numeric

  /** Down payment used when neither an amount nor a percentage is given. */
  const DefaultDownPaymentPercent: real := 0.20

  datatype LoanTerms = LoanTerms(loanAmount: real, downPaymentAmount: real, downPaymentPercent: real)

  /** A positive down-payment amount takes precedence over any percentage. */
  predicate AmountGiven(downPaymentAmount: Option<real>) {
    downPaymentAmount.Some? && downPaymentAmount.value > 0.0
  }

  predicate PercentGiven(downPaymentPercent: Option<real>) {
    downPaymentPercent.Some? && downPaymentPercent.value > 0.0
  }

  /**
   * Splits the purchase price into the loan and the down payment. The
   * percentage reported for an amount is that amount over the price, so the
   * price must not be zero in that branch. The loan is not floored at zero.
   */
  function LoanAmount(purchasePrice: real, downPaymentAmount: Option<real>, downPaymentPercent: Option<real>): (t: LoanTerms)
    requires !AmountGiven(downPaymentAmount) || purchasePrice != 0.0
    ensures t.loanAmount + t.downPaymentAmount == purchasePrice
    ensures t.downPaymentAmount == t.downPaymentPercent * purchasePrice
    ensures AmountGiven(downPaymentAmount) ==> t.downPaymentAmount == downPaymentAmount.value
    ensures !AmountGiven(downPaymentAmount) && PercentGiven(downPaymentPercent) ==>
              t.downPaymentPercent == downPaymentPercent.value
    ensures !AmountGiven(downPaymentAmount) && !PercentGiven(downPaymentPercent) ==>
              t.downPaymentPercent == DefaultDownPaymentPercent
  {
    if AmountGiven(downPaymentAmount) then
      var amount := downPaymentAmount.value;
      LoanTerms(purchasePrice - amount, amount, amount / purchasePrice)
    else if PercentGiven(downPaymentPercent) then
      var amount := purchasePrice * downPaymentPercent.value;
      LoanTerms(purchasePrice - amount, amount, downPaymentPercent.value)
    else
      var amount := purchasePrice * DefaultDownPaymentPercent;
      LoanTerms(purchasePrice - amount, amount, DefaultDownPaymentPercent)
  }

  /** With a positive amount given, the percentage argument is ignored entirely. */
  lemma AmountOverridesPercent(purchasePrice: real, amount: real, p1: Option<real>, p2: Option<real>)
    requires amount > 0.0 && purchasePrice != 0.0
    ensures LoanAmount(purchasePrice, Some(amount), p1) == LoanAmount(purchasePrice, Some(amount), p2)
  {
  }

  /** A down payment equal to a positive price leaves nothing to borrow: 100% down. */
  lemma FullDownPayment(purchasePrice: real, downPaymentPercent: Option<real>)
    requires purchasePrice > 0.0
    ensures var t := LoanAmount(purchasePrice, Some(purchasePrice), downPaymentPercent);
            t.loanAmount == 0.0 && t.downPaymentPercent == 1.0
  {
  }

  /** A non-positive amount is the same as no amount. */
  lemma NonPositiveAmountIgnored(purchasePrice: real, amount: real, percent: Option<real>)
    requires amount <= 0.0
    ensures LoanAmount(purchasePrice, Some(amount), percent) == LoanAmount(purchasePrice, None, percent)
  {
  }

  /** The monthly rate of an annual rate. */
  function MonthlyRate(interestRateAnnual: real): real {
    interestRateAnnual / 12.0
  }

  /** Number of monthly payments over the term. */
  function Payments(termYears: nat): nat {
    termYears * 12
  }

  /**
   * The amortising payment formula divides by `n` (zero rate) or by
   * `(1 + r)^n - 1` (non-zero rate); it is defined when that divisor is not zero.
   */
  predicate AmortisationDefined(interestRateAnnual: real, termYears: nat) {
    var r := MonthlyRate(interestRateAnnual);
    termYears > 0 && (r == 0.0 || Pow(1.0 + r, Payments(termYears)) != 1.0)
  }

  /** Monthly payment of a fully amortising loan, `L r (1+r)^n / ((1+r)^n - 1)`. */
  function AmortisedPayment(loanAmount: real, interestRateAnnual: real, termYears: nat): (p: real)
    requires AmortisationDefined(interestRateAnnual, termYears)
    ensures MonthlyRate(interestRateAnnual) == 0.0 ==> p * Payments(termYears) as real == loanAmount
    ensures MonthlyRate(interestRateAnnual) != 0.0 ==>
              var r, g := MonthlyRate(interestRateAnnual), Pow(1.0 + MonthlyRate(interestRateAnnual), Payments(termYears));
              p * (g - 1.0) == loanAmount * r * g
  {
    var r := MonthlyRate(interestRateAnnual);
    var n := Payments(termYears);
    if r == 0.0 then
      loanAmount / n as real
    else
      var g := Pow(1.0 + r, n);
      loanAmount * (r * g) / (g - 1.0)
  }

  /**
   * Monthly debt service: nothing when there is no positive loan, the
   * interest alone for an interest-only loan, otherwise the amortising payment.
   */
  function DebtService(loanAmount: real, interestRateAnnual: real, termYears: nat, interestOnly: bool): (p: real)
    requires loanAmount <= 0.0 || interestOnly || AmortisationDefined(interestRateAnnual, termYears)
    ensures loanAmount <= 0.0 ==> p == 0.0
    ensures loanAmount > 0.0 && interestOnly ==> p == loanAmount * MonthlyRate(interestRateAnnual)
    ensures loanAmount > 0.0 && !interestOnly ==> p == AmortisedPayment(loanAmount, interestRateAnnual, termYears)
  {
    if loanAmount <= 0.0 then 0.0
    else if interestOnly then loanAmount * MonthlyRate(interestRateAnnual)
    else AmortisedPayment(loanAmount, interestRateAnnual, termYears)
  }

  /**
   * The balance owed after `k` monthly payments of `payment`: each month the
   * balance accrues interest at `r`, then the payment is subtracted.
   */
  function Balance(loanAmount: real, r: real, payment: real, k: nat): real {
    if k == 0 then loanAmount else Balance(loanAmount, r, payment, k - 1) * (1.0 + r) - payment
  }

  /**
   * One month of the closed form: if the identity holds for balance `b` and
   * growth `g`, it holds for the next month's balance `b'` and growth `g'`.
   */
  lemma ClosedFormStep(loanAmount: real, r: real, payment: real, b: real, g: real, b': real, g': real)
    requires r * b == r * loanAmount * g - payment * (g - 1.0)
    requires b' == b * (1.0 + r) - payment && g' == (1.0 + r) * g
    ensures r * b' == r * loanAmount * g' - payment * (g' - 1.0)
  {
    calc {
      r * b';
      r * (b * (1.0 + r) - payment);
      (r * b) * (1.0 + r) - r * payment;
      (r * loanAmount * g - payment * (g - 1.0)) * (1.0 + r) - r * payment;
      r * loanAmount * ((1.0 + r) * g) - payment * ((1.0 + r) * g - 1.0);
      r * loanAmount * g' - payment * (g' - 1.0);
    }
  }

  /** The closed form for `k` months follows from the closed form for `k - 1`. */
  lemma ClosedFormNextMonth(loanAmount: real, r: real, payment: real, k: nat)
    requires k > 0
    requires r * Balance(loanAmount, r, payment, k - 1)
             == r * loanAmount * Pow(1.0 + r, k - 1) - payment * (Pow(1.0 + r, k - 1) - 1.0)
    ensures r * Balance(loanAmount, r, payment, k) == r * loanAmount * Pow(1.0 + r, k) - payment * (Pow(1.0 + r, k) - 1.0)
  {
    ClosedFormStep(loanAmount, r, payment, Balance(loanAmount, r, payment, k - 1), Pow(1.0 + r, k - 1),
                   Balance(loanAmount, r, payment, k), Pow(1.0 + r, k));
  }

  /** Closed form of the schedule: `r B_k = r L (1+r)^k - p ((1+r)^k - 1)`. */
  lemma {:induction false} BalanceClosedForm(loanAmount: real, r: real, payment: real, k: nat)
    ensures r * Balance(loanAmount, r, payment, k) == r * loanAmount * Pow(1.0 + r, k) - payment * (Pow(1.0 + r, k) - 1.0)
  {
    if k > 0 {
      BalanceClosedForm(loanAmount, r, payment, k - 1);
      ClosedFormNextMonth(loanAmount, r, payment, k);
    }
  }

  /** Without interest the balance falls by one payment a month. */
  lemma {:induction false} BalanceWithoutInterest(loanAmount: real, payment: real, k: nat)
    ensures Balance(loanAmount, 0.0, payment, k) == loanAmount - k as real * payment
  {
    if k > 0 {
      BalanceWithoutInterest(loanAmount, payment, k - 1);
    }
  }

  /** Paying exactly the interest each month leaves the balance where it started. */
  lemma {:induction false} InterestOnlyKeepsBalance(loanAmount: real, r: real, k: nat)
    ensures Balance(loanAmount, r, loanAmount * r, k) == loanAmount
  {
    if k > 0 {
      InterestOnlyKeepsBalance(loanAmount, r, k - 1);
    }
  }

  /** The amortising payment retires the loan in exactly `term * 12` payments. */
  lemma AmortisedPaymentRetiresLoan(loanAmount: real, interestRateAnnual: real, termYears: nat)
    requires AmortisationDefined(interestRateAnnual, termYears)
    ensures Balance(loanAmount, MonthlyRate(interestRateAnnual),
                    AmortisedPayment(loanAmount, interestRateAnnual, termYears), Payments(termYears)) == 0.0
  {
    var r, n := MonthlyRate(interestRateAnnual), Payments(termYears);
    var p := AmortisedPayment(loanAmount, interestRateAnnual, termYears);
    if r == 0.0 {
      BalanceWithoutInterest(loanAmount, p, n);
    } else {
      BalanceClosedForm(loanAmount, r, p, n);
      assert r * Balance(loanAmount, r, p, n) == 0.0;
    }
  }

  /**
   * At a positive rate the amortising payment exceeds the interest-only
   * payment on the same loan: each payment also repays principal.
   */
  lemma AmortisedPaymentExceedsInterest(loanAmount: real, interestRateAnnual: real, termYears: nat)
    requires loanAmount > 0.0 && interestRateAnnual > 0.0 && termYears > 0
    ensures AmortisationDefined(interestRateAnnual, termYears)
    ensures AmortisedPayment(loanAmount, interestRateAnnual, termYears) > loanAmount * MonthlyRate(interestRateAnnual)
  {
    var r, n := MonthlyRate(interestRateAnnual), Payments(termYears);
    PowAboveOne(1.0 + r, n);
    var g := Pow(1.0 + r, n);
    var p := AmortisedPayment(loanAmount, interestRateAnnual, termYears);
    var lr := loanAmount * r;
    assert p * (g - 1.0) == lr * g;
    assert (p - lr) * (g - 1.0) == lr;
    assert lr > 0.0;
    assert p - lr == lr / (g - 1.0);
    Numeric.PositiveQuotient(lr, g - 1.0);
  }

  /** A positive loan at a positive rate costs a positive monthly payment, in either mode. */
  lemma DebtServicePositive(loanAmount: real, interestRateAnnual: real, termYears: nat, interestOnly: bool)
    requires loanAmount > 0.0 && interestRateAnnual > 0.0 && termYears > 0
    ensures AmortisationDefined(interestRateAnnual, termYears)
    ensures DebtService(loanAmount, interestRateAnnual, termYears, interestOnly) > 0.0
  {
    AmortisedPaymentExceedsInterest(loanAmount, interestRateAnnual, termYears);
  }
}
