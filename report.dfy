/**
 * The reporting side of the rent and DSCR calculator: the three-way risk
 * rating (`_get_risk_label`), the human summary (`_generate_human_summary`)
 * and the investor notes (`_generate_investor_notes`).
 */
module Report {

  datatype RiskLabel = Strong | Borderline | Weak

  /** A DSCR at or above this is a strong rating. */
  const StrongThreshold: real := 1.30
  /** A DSCR at or above this, and below the strong threshold, is borderline. */
  const BorderlineThreshold: real := 1.10

  /** `_get_risk_label`: each rating holds exactly on its band of DSCR values. */
  function RiskLabelOf(dscr: real): (rating: RiskLabel)
    ensures rating == Strong <==> dscr >= StrongThreshold
    ensures rating == Borderline <==> BorderlineThreshold <= dscr < StrongThreshold
    ensures rating == Weak <==> dscr < BorderlineThreshold
  {
    if dscr >= StrongThreshold then Strong
    else if dscr >= BorderlineThreshold then Borderline
    else Weak
  }

  /** The order of the labels, weakest first. */
  function Rank(rating: RiskLabel): nat {
    match rating
    case Weak => 0
    case Borderline => 1
    case Strong => 2
  }

  /** A larger DSCR never earns a worse rating. */
  lemma RiskLabelMonotone(dscr: real, dscr': real)
    requires dscr <= dscr'
    ensures Rank(RiskLabelOf(dscr)) <= Rank(RiskLabelOf(dscr'))
  {
  }

  /** The rating as the calculator reports it. */
  function LabelName(rating: RiskLabel): string {
    match rating
    case Strong => "Strong"
    case Borderline => "Borderline"
    case Weak => "Weak"
  }

  const StrongClosing: string := "This indicates strong debt coverage with healthy margin for unexpected expenses."
  const BorderlineClosing: string :=
    "This indicates borderline debt coverage - carefully verify rent estimates and expenses."
  const WeakClosing: string :=
    "This indicates weak debt coverage - property may have negative cashflow or tight margins."

  /** The closing sentence that goes with each rating. */
  function ClosingFor(rating: RiskLabel): string {
    match rating
    case Strong => StrongClosing
    case Borderline => BorderlineClosing
    case Weak => WeakClosing
  }

  datatype CashflowSign = Positive | Negative

  /**
   * The content of the human summary: the address, the estimated rent, the
   * DSCR, the rating handed in by the caller, the cashflow as an amount and a
   * "positive"/"negative" word, and the closing sentence.
   */
  datatype HumanSummary = HumanSummary(
    address: string,
    estimatedMonthlyRent: real,
    dscr: real,
    rating: RiskLabel,
    cashflowAmount: real,
    cashflowSign: CashflowSign,
    closing: string)

  /**
   * The content of the inputs summary: the address, the price, the down
   * payment and the rate as percentages, and the term in years.
   */
  datatype InputsSummary = InputsSummary(
    address: string,
    purchasePrice: real,
    downPaymentPercentage: real,
    ratePercentage: real,
    termYears: nat)

  /**
   * `_generate_inputs_summary`: the down payment and the rate are shown as
   * percentages of one hundred, so dividing by one hundred gives back the
   * fractions the calculation used.
   */
  function InputsSummaryOf(address: string, purchasePrice: real, downPaymentPercent: real, interestRateAnnual: real,
                           termYears: nat): (summary: InputsSummary)
    ensures summary.downPaymentPercentage / 100.0 == downPaymentPercent
    ensures summary.ratePercentage / 100.0 == interestRateAnnual
    ensures summary.address == address && summary.purchasePrice == purchasePrice && summary.termYears == termYears
  {
    InputsSummary(address, purchasePrice, downPaymentPercent * 100.0, interestRateAnnual * 100.0, termYears)
  }

  /** The cashflow that a summary's amount and sign describe. */
  function SignedCashflow(summary: HumanSummary): real {
    if summary.cashflowSign == Positive then summary.cashflowAmount else -summary.cashflowAmount
  }

  /**
   * `_generate_human_summary`. The closing sentence branches on the DSCR
   * itself, not on the rating it is given, and agrees with the rating the DSCR
   * earns; the amount and the word together give back the cashflow.
   */
  function HumanSummaryOf(address: string, estimatedMonthlyRent: real, dscr: real, monthlyCashflow: real,
                          rating: RiskLabel): (summary: HumanSummary)
    ensures summary.cashflowAmount >= 0.0
    ensures summary.cashflowSign == Positive <==> monthlyCashflow >= 0.0
    ensures SignedCashflow(summary) == monthlyCashflow
    ensures summary.closing == ClosingFor(RiskLabelOf(dscr))
    ensures summary.rating == rating && summary.dscr == dscr && summary.address == address
    ensures summary.estimatedMonthlyRent == estimatedMonthlyRent
  {
    var amount := if monthlyCashflow >= 0.0 then monthlyCashflow else -monthlyCashflow;
    var closing :=
      if dscr >= StrongThreshold then StrongClosing
      else if dscr >= BorderlineThreshold then BorderlineClosing
      else WeakClosing;
    HumanSummary(address, estimatedMonthlyRent, dscr, rating, amount,
                 if monthlyCashflow >= 0.0 then Positive else Negative, closing)
  }

  /** Given the rating its DSCR earns, the summary's closing sentence matches its rating. */
  lemma ClosingAgreesWithLabel(address: string, estimatedMonthlyRent: real, dscr: real, monthlyCashflow: real)
    ensures var summary := HumanSummaryOf(address, estimatedMonthlyRent, dscr, monthlyCashflow, RiskLabelOf(dscr));
            summary.closing == ClosingFor(summary.rating)
  {
  }

  /** Distinct labels close with distinct sentences, so the closing sentence determines the rating. */
  lemma ClosingDeterminesLabel(rating: RiskLabel, rating': RiskLabel)
    requires ClosingFor(rating) == ClosingFor(rating')
    ensures rating == rating'
  {
    assert |StrongClosing| == 80 && |BorderlineClosing| == 87 && |WeakClosing| == 89;
  }

  const LowConfidenceNote: string := "LOW CONFIDENCE in rent estimate due to limited property information."
  const CautionNote: string :=
    "CAUTION: DSCR below 1.10 indicates property may not generate sufficient income to cover debt."
  const NegativeCashflowNote: string :=
    "WARNING: Projected negative monthly cashflow. Property would require ongoing capital contributions."
  const TightCashflowNote: string := "Tight cashflow margins - ensure reserve funds for repairs and vacancies."

  /** Confidence below this draws the low-confidence note. */
  const LowConfidenceThreshold: real := 0.6
  /** A non-negative cashflow below this draws the tight-margin note. */
  const TightCashflowThreshold: real := 200.0

  /** The four sentences every set of notes ends with. */
  const StandardNotes: seq<string> := [
    "Verify actual rents with local property managers or recent comparable leases.",
    "Consider getting professional appraisal and rent study before proceeding.",
    "Operating expense ratio of 35% is an estimate - verify actual costs for this property.",
    "Insurance estimate of $150/month is generic - get actual quote for this property."
  ]

  /** The notes, in the order they are appended. */
  function NotesFor(dscr: real, monthlyCashflow: real, confidence: real): seq<string> {
    (if confidence < LowConfidenceThreshold then [LowConfidenceNote] else [])
    + (if dscr < BorderlineThreshold then [CautionNote] else [])
    + (if monthlyCashflow < 0.0 then [NegativeCashflowNote]
       else if monthlyCashflow < TightCashflowThreshold then [TightCashflowNote]
       else [])
    + StandardNotes
  }

  /** Python's `separator.join(parts)`. */
  function Join(parts: seq<string>, separator: string): string {
    if |parts| == 0 then ""
    else if |parts| == 1 then parts[0]
    else Join(parts[..|parts| - 1], separator) + separator + parts[|parts| - 1]
  }

  /** Joining ends with the last part, and starts with the first. */
  lemma {:induction false} JoinEnds(parts: seq<string>, separator: string)
    requires |parts| > 0
    ensures var text := Join(parts, separator);
            && |text| >= |parts[0]| && text[..|parts[0]|] == parts[0]
            && |text| >= |parts[|parts| - 1]| && text[|text| - |parts[|parts| - 1]|..] == parts[|parts| - 1]
  {
    if |parts| > 1 {
      var prefix := parts[..|parts| - 1];
      JoinEnds(prefix, separator);
      var text := Join(parts, separator);
      assert text == Join(prefix, separator) + separator + parts[|parts| - 1];
      assert text[..|parts[0]|] == Join(prefix, separator)[..|prefix[0]|];
    }
  }

  /**
   * `_generate_investor_notes`: appends the notes that apply, then the four
   * standard ones, and joins them with single spaces.
   */
  method InvestorNotes(dscr: real, monthlyCashflow: real, confidence: real) returns (text: string)
    ensures text == Join(NotesFor(dscr, monthlyCashflow, confidence), " ")
  {
    var notes: seq<string> := [];
    if confidence < LowConfidenceThreshold {
      notes := notes + [LowConfidenceNote];
    }
    if dscr < BorderlineThreshold {
      notes := notes + [CautionNote];
    }
    if monthlyCashflow < 0.0 {
      notes := notes + [NegativeCashflowNote];
    } else if monthlyCashflow < TightCashflowThreshold {
      notes := notes + [TightCashflowNote];
    }
    notes := notes + [StandardNotes[0]];
    notes := notes + [StandardNotes[1]];
    notes := notes + [StandardNotes[2]];
    notes := notes + [StandardNotes[3]];
    assert notes == NotesFor(dscr, monthlyCashflow, confidence);
    text := Join(notes, " ");
  }

  /**
   * Which notes appear: low confidence exactly below 0.6, the DSCR caution
   * exactly below 1.10, the negative-cashflow warning exactly for a negative
   * cashflow, the tight-margin note exactly for a cashflow in [0, 200), never
   * both cashflow notes, and always the four standard sentences last.
   */
  lemma NotesContents(dscr: real, monthlyCashflow: real, confidence: real)
    ensures var notes := NotesFor(dscr, monthlyCashflow, confidence);
            && 4 <= |notes| <= 7
            && notes[|notes| - 4..] == StandardNotes
            && (LowConfidenceNote in notes <==> confidence < LowConfidenceThreshold)
            && (CautionNote in notes <==> dscr < BorderlineThreshold)
            && (NegativeCashflowNote in notes <==> monthlyCashflow < 0.0)
            && (TightCashflowNote in notes <==> 0.0 <= monthlyCashflow < TightCashflowThreshold)
            && !(NegativeCashflowNote in notes && TightCashflowNote in notes)
  {
    var notes := NotesFor(dscr, monthlyCashflow, confidence);
    assert |LowConfidenceNote| == 68 && |CautionNote| == 93 && |NegativeCashflowNote| == 99;
    assert |TightCashflowNote| == 72;
    assert |StandardNotes[0]| == 77 && |StandardNotes[1]| == 73 && |StandardNotes[2]| == 86;
    assert |StandardNotes[3]| == 81;
  }

  /**
   * The joined notes end with the insurance sentence, and start with the
   * low-confidence note when the confidence is below 0.6.
   */
  lemma NotesTextEnds(dscr: real, monthlyCashflow: real, confidence: real)
    ensures var text := Join(NotesFor(dscr, monthlyCashflow, confidence), " ");
            && |text| >= |StandardNotes[3]| && text[|text| - |StandardNotes[3]|..] == StandardNotes[3]
            && (confidence < LowConfidenceThreshold ==>
                  |text| >= |LowConfidenceNote| && text[..|LowConfidenceNote|] == LowConfidenceNote)
  {
    var notes := NotesFor(dscr, monthlyCashflow, confidence);
    NotesContents(dscr, monthlyCashflow, confidence);
    JoinEnds(notes, " ");
    assert notes[|notes| - 1] == StandardNotes[3];
  }
}
