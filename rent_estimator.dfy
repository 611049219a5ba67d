/**
 * The heuristic rent estimator of the rent and DSCR calculator
 * (`_estimate_rent`): a price-tier rent multiplier, then one adjustment per
 * property attribute, each of which may scale the rent, scale the
 * confidence down and append assumptions to an ordered list.
 */
module RentEstimator {
  import opened Wrappers
  import opened Text
  import opened Numeric

  /**
   * One entry of the assumptions list. The entries that the source renders
   * with an attribute's value carry that value.
   */
  datatype Assumption =
    | LowPriceHigherMultiplier
    | HighPriceLowerMultiplier
    | AdjustedForType(propertyType: string)
    | MultiFamilyPerUnit
    | TypeNotSpecified
    | OneBedroom
    | LargerProperty(beds: int)
    | BedroomsNotSpecified
    | HasBathrooms(baths: real)
    | BathroomsNotSpecified
    | HasSquareFeet(sqft: int)
    | LowPricePerSqft
    | HighPricePerSqft
    | SquareFootageNotSpecified
    | GoodCondition
    | PoorCondition
    | ConditionNotSpecified
    | HighCostMetro

  /** The estimate returned to the caller; every amount is rounded to cents. */
  datatype RentEstimate = RentEstimate(
    estimated: real,
    low: real,
    high: real,
    confidence: real,
    assumptions: seq<Assumption>)

  /** Confidence is never reported above this ceiling. */
  const ConfidenceCap: real := 0.75
  /** The range is the estimate scaled down and up by fifteen percent. */
  const LowRangeFactor: real := 0.85
  const HighRangeFactor: real := 1.15

  const HighCostCities: seq<string> := ["SAN FRANCISCO", "NEW YORK", "BOSTON", "SEATTLE", "LOS ANGELES",
                                        "SAN JOSE", "WASHINGTON DC", "OAKLAND", "MANHATTAN"]
  const CondoTypes: seq<string> := ["CONDO", "TOWNHOUSE"]
  const MultiFamilyTypes: seq<string> := ["MULTI-FAMILY", "DUPLEX", "TRIPLEX"]
  const GoodConditionWords: seq<string> := ["excellent", "updated", "renovated"]
  const PoorConditionWords: seq<string> := ["poor", "fixer", "needs work"]

  /** Python truthiness of an optional string: present and non-empty. */
  predicate Truthy(s: Option<string>) {
    s.Some? && s.value != ""
  }

  /**
   * One step of the estimate: the factor it applies to the rent, the factor
   * it applies to the confidence, and the assumptions it appends. The first
   * step (the price tier) sets the rent multiplier and the base confidence.
   */
  datatype Adjustment = Adjustment(rentFactor: real, confidenceFactor: real, notes: seq<Assumption>)

  /** The price tier: lower-priced properties rent for a larger share of their price. */
  function PriceTierStep(purchasePrice: real): Adjustment {
    if purchasePrice < 100000.0 then Adjustment(0.012, 0.5, [LowPriceHigherMultiplier])
    else if purchasePrice < 250000.0 then Adjustment(0.01, 0.65, [])
    else if purchasePrice < 500000.0 then Adjustment(0.0085, 0.7, [])
    else if purchasePrice < 1000000.0 then Adjustment(0.007, 0.6, [])
    else Adjustment(0.006, 0.5, [HighPriceLowerMultiplier])
  }

  function PropertyTypeStep(propertyType: Option<string>): Adjustment {
    if Truthy(propertyType) then
      var kind := ToUpper(propertyType.value);
      if kind in CondoTypes then Adjustment(0.95, 1.0, [AdjustedForType(propertyType.value)])
      else if kind in MultiFamilyTypes then Adjustment(1.0, 0.9, [MultiFamilyPerUnit])
      else Adjustment(1.0, 1.0, [])
    else Adjustment(1.0, 0.95, [TypeNotSpecified])
  }

  function BedroomsStep(beds: Option<int>): Adjustment {
    if beds.Some? then
      if beds.value == 1 then Adjustment(1.0, 0.9, [OneBedroom])
      else if beds.value >= 5 then Adjustment(1.0, 0.85, [LargerProperty(beds.value)])
      else Adjustment(1.0, 1.0, [])
    else Adjustment(1.0, 0.9, [BedroomsNotSpecified])
  }

  function BathroomsStep(baths: Option<real>): Adjustment {
    if baths.Some? then Adjustment(1.0, 1.0, [HasBathrooms(baths.value)])
    else Adjustment(1.0, 0.9, [BathroomsNotSpecified])
  }

  /** The price-per-square-foot sanity check divides by the square footage. */
  function SquareFootageStep(purchasePrice: real, sqft: Option<int>): Adjustment
    requires sqft.None? || sqft.value != 0
  {
    if sqft.Some? then
      var pricePerSqft := purchasePrice / sqft.value as real;
      if pricePerSqft < 50.0 then Adjustment(1.0, 0.8, [HasSquareFeet(sqft.value), LowPricePerSqft])
      else if pricePerSqft > 500.0 then Adjustment(1.0, 0.85, [HasSquareFeet(sqft.value), HighPricePerSqft])
      else Adjustment(1.0, 1.0, [HasSquareFeet(sqft.value)])
    else Adjustment(1.0, 0.9, [SquareFootageNotSpecified])
  }

  function ConditionStep(condition: Option<string>): Adjustment {
    if Truthy(condition) then
      var words := ToLower(condition.value);
      if ContainsAny(words, GoodConditionWords) then Adjustment(1.1, 1.0, [GoodCondition])
      else if ContainsAny(words, PoorConditionWords) then Adjustment(0.85, 0.8, [PoorCondition])
      else Adjustment(1.0, 1.0, [])
    else Adjustment(1.0, 0.95, [ConditionNotSpecified])
  }

  function MetroStep(address: string): Adjustment {
    if ContainsAny(ToUpper(address), HighCostCities) then Adjustment(1.0, 0.85, [HighCostMetro])
    else Adjustment(1.0, 1.0, [])
  }

  /** The running values of `_estimate_rent`: the rent, the confidence and the assumptions so far. */
  datatype Running = Running(rent: real, confidence: real, assumptions: seq<Assumption>)

  /** One step applied to the running values. */
  function Then(run: Running, step: Adjustment): Running {
    Running(run.rent * step.rentFactor, run.confidence * step.confidenceFactor, run.assumptions + step.notes)
  }

  /**
   * The running values after a run of steps, starting from the purchase
   * price, a confidence of one and no assumptions.
   */
  function RunSteps(purchasePrice: real, steps: seq<Adjustment>): Running {
    if |steps| == 0 then Running(purchasePrice, 1.0, [])
    else Then(RunSteps(purchasePrice, steps[..|steps| - 1]), steps[|steps| - 1])
  }

  /** The seven steps of the estimate, in the order the source applies them. */
  function StepsOf(address: string, purchasePrice: real, propertyType: Option<string>, beds: Option<int>,
                   baths: Option<real>, sqft: Option<int>, condition: Option<string>): (steps: seq<Adjustment>)
    requires sqft.None? || sqft.value != 0
    ensures |steps| == 7
  {
    [PriceTierStep(purchasePrice), PropertyTypeStep(propertyType), BedroomsStep(beds),
     BathroomsStep(baths), SquareFootageStep(purchasePrice, sqft), ConditionStep(condition),
     MetroStep(address)]
  }

  /**
   * The estimate as a function of the inputs: the price scaled by every
   * step's rent factor, the range around it, and the product of the
   * confidence factors under the cap.
   */
  function RentEstimateOf(address: string, purchasePrice: real, propertyType: Option<string>, beds: Option<int>,
                          baths: Option<real>, sqft: Option<int>, condition: Option<string>): RentEstimate
    requires sqft.None? || sqft.value != 0
  {
    var run := RunSteps(purchasePrice, StepsOf(address, purchasePrice, propertyType, beds, baths, sqft, condition));
    RentEstimate(Round2(run.rent), Round2(run.rent * LowRangeFactor), Round2(run.rent * HighRangeFactor),
                 Round2(Min(run.confidence, ConfidenceCap)), run.assumptions)
  }

  /** Seven steps run one after the other, from the start. */
  lemma SevenSteps(purchasePrice: real, a: Adjustment, b: Adjustment, c: Adjustment, d: Adjustment, e: Adjustment,
                   f: Adjustment, g: Adjustment)
    ensures RunSteps(purchasePrice, [a, b, c, d, e, f, g])
         == Then(Then(Then(Then(Then(Then(Then(Running(purchasePrice, 1.0, []), a), b), c), d), e), f), g)
  {
    assert [a, b, c, d, e, f, g][..6] == [a, b, c, d, e, f];
    assert [a, b, c, d, e, f][..5] == [a, b, c, d, e];
    assert [a, b, c, d, e][..4] == [a, b, c, d];
    assert [a, b, c, d][..3] == [a, b, c];
    assert [a, b, c][..2] == [a, b];
    assert [a, b][..1] == [a];
    assert RunSteps(purchasePrice, [a]) == Then(Running(purchasePrice, 1.0, []), a);
    assert RunSteps(purchasePrice, [a, b]) == Then(RunSteps(purchasePrice, [a]), b);
    assert RunSteps(purchasePrice, [a, b, c]) == Then(RunSteps(purchasePrice, [a, b]), c);
    assert RunSteps(purchasePrice, [a, b, c, d]) == Then(RunSteps(purchasePrice, [a, b, c]), d);
    assert RunSteps(purchasePrice, [a, b, c, d, e]) == Then(RunSteps(purchasePrice, [a, b, c, d]), e);
    assert RunSteps(purchasePrice, [a, b, c, d, e, f]) == Then(RunSteps(purchasePrice, [a, b, c, d, e]), f);
  }

  /** The price-tier chain of `_estimate_rent`, starting from an empty assumptions list. */
  method PriceTier(purchasePrice: real) returns (rentMultiplier: real, confidence: real, assumptions: seq<Assumption>)
    ensures rentMultiplier == PriceTierStep(purchasePrice).rentFactor
    ensures confidence == PriceTierStep(purchasePrice).confidenceFactor
    ensures assumptions == PriceTierStep(purchasePrice).notes
  {
    assumptions := [];
    confidence := 0.6;
    if purchasePrice < 100000.0 {
      rentMultiplier := 0.012;
      confidence := 0.5;
      assumptions := assumptions + [LowPriceHigherMultiplier];
    } else if purchasePrice < 250000.0 {
      rentMultiplier := 0.01;
      confidence := 0.65;
    } else if purchasePrice < 500000.0 {
      rentMultiplier := 0.0085;
      confidence := 0.7;
    } else if purchasePrice < 1000000.0 {
      rentMultiplier := 0.007;
      confidence := 0.6;
    } else {
      rentMultiplier := 0.006;
      confidence := 0.5;
      assumptions := assumptions + [HighPriceLowerMultiplier];
    }
  }

  method AdjustForPropertyType(propertyType: Option<string>, rent: real, confidence: real, assumptions: seq<Assumption>)
    returns (rent': real, confidence': real, assumptions': seq<Assumption>)
    ensures Running(rent', confidence', assumptions') == Then(Running(rent, confidence, assumptions), PropertyTypeStep(propertyType))
  {
    rent', confidence', assumptions' := rent, confidence, assumptions;
    if Truthy(propertyType) {
      var kind := ToUpper(propertyType.value);
      if kind in CondoTypes {
        rent' := rent' * 0.95;
        assumptions' := assumptions' + [AdjustedForType(propertyType.value)];
      } else if kind in MultiFamilyTypes {
        assumptions' := assumptions' + [MultiFamilyPerUnit];
        confidence' := confidence' * 0.9;
      }
    } else {
      assumptions' := assumptions' + [TypeNotSpecified];
      confidence' := confidence' * 0.95;
    }
  }

  method AdjustForBedrooms(beds: Option<int>, rent: real, confidence: real, assumptions: seq<Assumption>)
    returns (rent': real, confidence': real, assumptions': seq<Assumption>)
    ensures Running(rent', confidence', assumptions') == Then(Running(rent, confidence, assumptions), BedroomsStep(beds))
  {
    rent', confidence', assumptions' := rent, confidence, assumptions;
    if beds.Some? {
      if beds.value == 1 {
        assumptions' := assumptions' + [OneBedroom];
        confidence' := confidence' * 0.9;
      } else if beds.value >= 5 {
        assumptions' := assumptions' + [LargerProperty(beds.value)];
        confidence' := confidence' * 0.85;
      }
    } else {
      assumptions' := assumptions' + [BedroomsNotSpecified];
      confidence' := confidence' * 0.9;
    }
  }

  method AdjustForBathrooms(baths: Option<real>, rent: real, confidence: real, assumptions: seq<Assumption>)
    returns (rent': real, confidence': real, assumptions': seq<Assumption>)
    ensures Running(rent', confidence', assumptions') == Then(Running(rent, confidence, assumptions), BathroomsStep(baths))
  {
    rent', confidence', assumptions' := rent, confidence, assumptions;
    if baths.Some? {
      assumptions' := assumptions' + [HasBathrooms(baths.value)];
    } else {
      assumptions' := assumptions' + [BathroomsNotSpecified];
      confidence' := confidence' * 0.9;
    }
  }

  method AdjustForSquareFootage(purchasePrice: real, sqft: Option<int>, rent: real, confidence: real,
                                assumptions: seq<Assumption>)
    returns (rent': real, confidence': real, assumptions': seq<Assumption>)
    requires sqft.None? || sqft.value != 0
    ensures Running(rent', confidence', assumptions') == Then(Running(rent, confidence, assumptions), SquareFootageStep(purchasePrice, sqft))
  {
    rent', confidence', assumptions' := rent, confidence, assumptions;
    if sqft.Some? {
      assumptions' := assumptions' + [HasSquareFeet(sqft.value)];
      var pricePerSqft := purchasePrice / sqft.value as real;
      if pricePerSqft < 50.0 {
        assumptions' := assumptions' + [LowPricePerSqft];
        confidence' := confidence' * 0.8;
      } else if pricePerSqft > 500.0 {
        assumptions' := assumptions' + [HighPricePerSqft];
        confidence' := confidence' * 0.85;
      }
    } else {
      assumptions' := assumptions' + [SquareFootageNotSpecified];
      confidence' := confidence' * 0.9;
    }
  }

  method AdjustForCondition(condition: Option<string>, rent: real, confidence: real, assumptions: seq<Assumption>)
    returns (rent': real, confidence': real, assumptions': seq<Assumption>)
    ensures Running(rent', confidence', assumptions') == Then(Running(rent, confidence, assumptions), ConditionStep(condition))
  {
    rent', confidence', assumptions' := rent, confidence, assumptions;
    if Truthy(condition) {
      var words := ToLower(condition.value);
      if ContainsAny(words, GoodConditionWords) {
        rent' := rent' * 1.1;
        assumptions' := assumptions' + [GoodCondition];
      } else if ContainsAny(words, PoorConditionWords) {
        rent' := rent' * 0.85;
        assumptions' := assumptions' + [PoorCondition];
        confidence' := confidence' * 0.8;
      }
    } else {
      assumptions' := assumptions' + [ConditionNotSpecified];
      confidence' := confidence' * 0.95;
    }
  }

  method AdjustForMetro(address: string, rent: real, confidence: real, assumptions: seq<Assumption>)
    returns (rent': real, confidence': real, assumptions': seq<Assumption>)
    ensures Running(rent', confidence', assumptions') == Then(Running(rent, confidence, assumptions), MetroStep(address))
  {
    rent', confidence', assumptions' := rent, confidence, assumptions;
    if ContainsAny(ToUpper(address), HighCostCities) {
      assumptions' := assumptions' + [HighCostMetro];
      confidence' := confidence' * 0.85;
    }
  }

  /**
   * `_estimate_rent`: the price tier fixes the rent multiplier and the base
   * confidence, then each attribute adjusts the running rent and confidence
   * and appends its assumptions, in the source's order. The ghost
   * snapshots name the running values after each step.
   */
  method EstimateRent(address: string, purchasePrice: real, propertyType: Option<string>, beds: Option<int>,
                      baths: Option<real>, sqft: Option<int>, condition: Option<string>) returns (e: RentEstimate)
    requires sqft.None? || sqft.value != 0
    ensures e == RentEstimateOf(address, purchasePrice, propertyType, beds, baths, sqft, condition)
  {
    var rentMultiplier, confidence, assumptions := PriceTier(purchasePrice);
    var estimatedRent := purchasePrice * rentMultiplier;
    ghost var start := Running(purchasePrice, 1.0, []);
    ghost var tier := Running(estimatedRent, confidence, assumptions);
    assert tier == Then(start, PriceTierStep(purchasePrice));

    estimatedRent, confidence, assumptions := AdjustForPropertyType(propertyType, estimatedRent, confidence, assumptions);
    ghost var typed := Running(estimatedRent, confidence, assumptions);
    estimatedRent, confidence, assumptions := AdjustForBedrooms(beds, estimatedRent, confidence, assumptions);
    ghost var bedrooms := Running(estimatedRent, confidence, assumptions);
    estimatedRent, confidence, assumptions := AdjustForBathrooms(baths, estimatedRent, confidence, assumptions);
    ghost var bathrooms := Running(estimatedRent, confidence, assumptions);
    estimatedRent, confidence, assumptions := AdjustForSquareFootage(purchasePrice, sqft, estimatedRent, confidence, assumptions);
    ghost var squareFootage := Running(estimatedRent, confidence, assumptions);
    estimatedRent, confidence, assumptions := AdjustForCondition(condition, estimatedRent, confidence, assumptions);
    ghost var conditioned := Running(estimatedRent, confidence, assumptions);
    estimatedRent, confidence, assumptions := AdjustForMetro(address, estimatedRent, confidence, assumptions);

    SevenSteps(purchasePrice, PriceTierStep(purchasePrice), PropertyTypeStep(propertyType), BedroomsStep(beds),
               BathroomsStep(baths), SquareFootageStep(purchasePrice, sqft), ConditionStep(condition), MetroStep(address));
    assert Running(estimatedRent, confidence, assumptions)
        == RunSteps(purchasePrice, StepsOf(address, purchasePrice, propertyType, beds, baths, sqft, condition));

    var lowEstimate := estimatedRent * LowRangeFactor;
    var highEstimate := estimatedRent * HighRangeFactor;
    confidence := Min(confidence, ConfidenceCap);

    e := RentEstimate(Round2(estimatedRent), Round2(lowEstimate), Round2(highEstimate), Round2(confidence), assumptions);
  }

  /** A step never lowers the rent to zero or below and only ever keeps or lowers the confidence. */
  predicate Dampening(step: Adjustment) {
    step.rentFactor > 0.0 && 0.0 < step.confidenceFactor <= 1.0
  }

  /** Every step of the estimate dampens, and the price tier starts the confidence between 0.5 and 0.7. */
  lemma StepsDampen(address: string, purchasePrice: real, propertyType: Option<string>, beds: Option<int>,
                    baths: Option<real>, sqft: Option<int>, condition: Option<string>)
    requires sqft.None? || sqft.value != 0
    ensures var steps := StepsOf(address, purchasePrice, propertyType, beds, baths, sqft, condition);
            (forall k :: 0 <= k < |steps| ==> Dampening(steps[k]))
            && 0.5 <= steps[0].confidenceFactor <= 0.7
  {
  }

  /**
   * Running steps that dampen from a first step whose confidence is at most
   * `ceiling` keeps the confidence in `(0, ceiling]`, and keeps the rent
   * positive (non-negative) for a positive (non-negative) price.
   */
  lemma {:induction false} RunStepsBounds(purchasePrice: real, steps: seq<Adjustment>, ceiling: real)
    requires |steps| > 0 && steps[0].confidenceFactor <= ceiling
    requires forall k :: 0 <= k < |steps| ==> Dampening(steps[k])
    ensures 0.0 < RunSteps(purchasePrice, steps).confidence <= ceiling
    ensures purchasePrice > 0.0 ==> RunSteps(purchasePrice, steps).rent > 0.0
    ensures purchasePrice >= 0.0 ==> RunSteps(purchasePrice, steps).rent >= 0.0
  {
    var last := steps[|steps| - 1];
    if |steps| > 1 {
      var prefix := steps[..|steps| - 1];
      RunStepsBounds(purchasePrice, prefix, ceiling);
      var before := RunSteps(purchasePrice, prefix);
      assert before.confidence * last.confidenceFactor <= before.confidence * 1.0;
    }
  }

  /**
   * The confidence before the cap lies in `(0, 0.7]`: the 0.75 cap never
   * changes it, and the reported confidence is at most 0.70.
   */
  lemma ConfidenceCapNeverBinds(address: string, purchasePrice: real, propertyType: Option<string>,
                                  beds: Option<int>, baths: Option<real>, sqft: Option<int>, condition: Option<string>)
    requires sqft.None? || sqft.value != 0
    ensures var run := RunSteps(purchasePrice, StepsOf(address, purchasePrice, propertyType, beds, baths, sqft, condition));
            0.0 < run.confidence <= 0.7 && Min(run.confidence, ConfidenceCap) == run.confidence
    ensures 0.0 <= RentEstimateOf(address, purchasePrice, propertyType, beds, baths, sqft, condition).confidence <= 0.7
  {
    var steps := StepsOf(address, purchasePrice, propertyType, beds, baths, sqft, condition);
    StepsDampen(address, purchasePrice, propertyType, beds, baths, sqft, condition);
    RunStepsBounds(purchasePrice, steps, 0.7);
    var c := RunSteps(purchasePrice, steps).confidence;
    Round2Monotone(c, 70 as real / 100.0);
    Round2OfCents(70);
    Round2NonNegative(c);
  }

  /** For a non-negative price the range brackets the estimate: low <= estimated <= high, none negative. */
  lemma RangeBracketsEstimate(address: string, purchasePrice: real, propertyType: Option<string>,
                              beds: Option<int>, baths: Option<real>, sqft: Option<int>, condition: Option<string>)
    requires sqft.None? || sqft.value != 0
    requires purchasePrice >= 0.0
    ensures var e := RentEstimateOf(address, purchasePrice, propertyType, beds, baths, sqft, condition);
            0.0 <= e.low <= e.estimated <= e.high
  {
    var steps := StepsOf(address, purchasePrice, propertyType, beds, baths, sqft, condition);
    StepsDampen(address, purchasePrice, propertyType, beds, baths, sqft, condition);
    RunStepsBounds(purchasePrice, steps, 0.7);
    var rent := RunSteps(purchasePrice, steps).rent;
    Round2NonNegative(rent * LowRangeFactor);
    Round2Monotone(rent * LowRangeFactor, rent);
    Round2Monotone(rent, rent * HighRangeFactor);
  }

  /** The assumptions are each step's notes, in step order. */
  lemma AssumptionsInStepOrder(address: string, purchasePrice: real, propertyType: Option<string>,
                               beds: Option<int>, baths: Option<real>, sqft: Option<int>, condition: Option<string>)
    requires sqft.None? || sqft.value != 0
    ensures RentEstimateOf(address, purchasePrice, propertyType, beds, baths, sqft, condition).assumptions
         == PriceTierStep(purchasePrice).notes + PropertyTypeStep(propertyType).notes + BedroomsStep(beds).notes
            + BathroomsStep(baths).notes + SquareFootageStep(purchasePrice, sqft).notes
            + ConditionStep(condition).notes + MetroStep(address).notes
  {
    SevenSteps(purchasePrice, PriceTierStep(purchasePrice), PropertyTypeStep(propertyType), BedroomsStep(beds),
               BathroomsStep(baths), SquareFootageStep(purchasePrice, sqft), ConditionStep(condition), MetroStep(address));
  }

  /**
   * The bathroom and square-footage steps always note something, so the
   * list is never empty and the fallback text for an empty list is never used.
   */
  lemma AssumptionsNeverEmpty(address: string, purchasePrice: real, propertyType: Option<string>,
                                  beds: Option<int>, baths: Option<real>, sqft: Option<int>, condition: Option<string>)
    requires sqft.None? || sqft.value != 0
    ensures var a := RentEstimateOf(address, purchasePrice, propertyType, beds, baths, sqft, condition).assumptions;
            |a| >= 2
  {
    AssumptionsInStepOrder(address, purchasePrice, propertyType, beds, baths, sqft, condition);
  }

  /** The lowest price tier, and only it, is noted. */
  lemma LowPriceNoted(address: string, purchasePrice: real, propertyType: Option<string>,
                       beds: Option<int>, baths: Option<real>, sqft: Option<int>, condition: Option<string>)
    requires sqft.None? || sqft.value != 0
    ensures var a := RentEstimateOf(address, purchasePrice, propertyType, beds, baths, sqft, condition).assumptions;
            LowPriceHigherMultiplier in a <==> purchasePrice < 100000.0
  {
    AssumptionsInStepOrder(address, purchasePrice, propertyType, beds, baths, sqft, condition);
  }

  /** The highest price tier, and only it, is noted. */
  lemma HighPriceNoted(address: string, purchasePrice: real, propertyType: Option<string>,
                       beds: Option<int>, baths: Option<real>, sqft: Option<int>, condition: Option<string>)
    requires sqft.None? || sqft.value != 0
    ensures var a := RentEstimateOf(address, purchasePrice, propertyType, beds, baths, sqft, condition).assumptions;
            HighPriceLowerMultiplier in a <==> purchasePrice >= 1000000.0
  {
    AssumptionsInStepOrder(address, purchasePrice, propertyType, beds, baths, sqft, condition);
  }

  /** A property type the caller leaves out (or leaves empty) is noted, and only then. */
  lemma MissingTypeNoted(address: string, purchasePrice: real, propertyType: Option<string>,
                       beds: Option<int>, baths: Option<real>, sqft: Option<int>, condition: Option<string>)
    requires sqft.None? || sqft.value != 0
    ensures var a := RentEstimateOf(address, purchasePrice, propertyType, beds, baths, sqft, condition).assumptions;
            TypeNotSpecified in a <==> !Truthy(propertyType)
  {
    AssumptionsInStepOrder(address, purchasePrice, propertyType, beds, baths, sqft, condition);
  }

  /** A condition the caller leaves out (or leaves empty) is noted, and only then. */
  lemma MissingConditionNoted(address: string, purchasePrice: real, propertyType: Option<string>,
                       beds: Option<int>, baths: Option<real>, sqft: Option<int>, condition: Option<string>)
    requires sqft.None? || sqft.value != 0
    ensures var a := RentEstimateOf(address, purchasePrice, propertyType, beds, baths, sqft, condition).assumptions;
            ConditionNotSpecified in a <==> !Truthy(condition)
  {
    AssumptionsInStepOrder(address, purchasePrice, propertyType, beds, baths, sqft, condition);
  }

  /** A bedroom count the caller leaves out is noted, and only then. */
  lemma MissingBedroomsNoted(address: string, purchasePrice: real, propertyType: Option<string>,
                       beds: Option<int>, baths: Option<real>, sqft: Option<int>, condition: Option<string>)
    requires sqft.None? || sqft.value != 0
    ensures var a := RentEstimateOf(address, purchasePrice, propertyType, beds, baths, sqft, condition).assumptions;
            BedroomsNotSpecified in a <==> beds.None?
  {
    AssumptionsInStepOrder(address, purchasePrice, propertyType, beds, baths, sqft, condition);
  }

  /** A bathroom count the caller leaves out is noted, and only then. */
  lemma MissingBathroomsNoted(address: string, purchasePrice: real, propertyType: Option<string>,
                       beds: Option<int>, baths: Option<real>, sqft: Option<int>, condition: Option<string>)
    requires sqft.None? || sqft.value != 0
    ensures var a := RentEstimateOf(address, purchasePrice, propertyType, beds, baths, sqft, condition).assumptions;
            BathroomsNotSpecified in a <==> baths.None?
  {
    AssumptionsInStepOrder(address, purchasePrice, propertyType, beds, baths, sqft, condition);
  }

  /** A floor area the caller leaves out is noted, and only then. */
  lemma MissingSquareFootageNoted(address: string, purchasePrice: real, propertyType: Option<string>,
                       beds: Option<int>, baths: Option<real>, sqft: Option<int>, condition: Option<string>)
    requires sqft.None? || sqft.value != 0
    ensures var a := RentEstimateOf(address, purchasePrice, propertyType, beds, baths, sqft, condition).assumptions;
            SquareFootageNotSpecified in a <==> sqft.None?
  {
    AssumptionsInStepOrder(address, purchasePrice, propertyType, beds, baths, sqft, condition);
  }

  /** A high-cost metro is noted exactly when the upper-cased address names one. */
  lemma HighCostMetroNoted(address: string, purchasePrice: real, propertyType: Option<string>,
                                  beds: Option<int>, baths: Option<real>, sqft: Option<int>, condition: Option<string>)
    requires sqft.None? || sqft.value != 0
    ensures var a := RentEstimateOf(address, purchasePrice, propertyType, beds, baths, sqft, condition).assumptions;
            HighCostMetro in a <==> ContainsAny(ToUpper(address), HighCostCities)
  {
    AssumptionsInStepOrder(address, purchasePrice, propertyType, beds, baths, sqft, condition);
  }

  /** The product of a sequence of factors, taken from the left. */
  function Product(factors: seq<real>): real {
    if |factors| == 0 then 1.0 else Product(factors[..|factors| - 1]) * factors[|factors| - 1]
  }

  lemma MulMonotone(a: real, b: real, c: real, d: real)
    requires 0.0 <= a <= b && 0.0 <= c <= d
    ensures 0.0 <= a * c <= b * d
  {
    assert a * c <= b * c;
    assert b * c <= b * d;
  }

  /** One more step keeps the floored rent below the running rent. */
  lemma RentStep(purchasePrice: real, low: real, before: real, floor: real, factor: real, low': real, after: real)
    requires 0.0 <= purchasePrice * low <= before && 0.0 <= floor <= factor
    requires low' == low * floor && after == before * factor
    ensures 0.0 <= purchasePrice * low' <= after
  {
    MulMonotone(purchasePrice * low, before, floor, factor);
    assert purchasePrice * (low * floor) == (purchasePrice * low) * floor;
  }

  /** Lower bounds on each step's rent factor bound the running rent from below. */
  lemma {:induction false} RentAtLeast(purchasePrice: real, steps: seq<Adjustment>, floors: seq<real>)
    requires purchasePrice >= 0.0 && |floors| == |steps|
    requires forall k :: 0 <= k < |steps| ==> 0.0 <= floors[k] <= steps[k].rentFactor
    ensures 0.0 <= purchasePrice * Product(floors) <= RunSteps(purchasePrice, steps).rent
  {
    if |steps| > 0 {
      var n := |steps| - 1;
      RentAtLeast(purchasePrice, steps[..n], floors[..n]);
      var low := Product(floors[..n]);
      var before := RunSteps(purchasePrice, steps[..n]).rent;
      RentStep(purchasePrice, low, before, floors[n], steps[n].rentFactor, Product(floors),
               RunSteps(purchasePrice, steps).rent);
    }
  }

  /** Lower bounds on each step's confidence factor bound the running confidence from below. */
  lemma {:induction false} ConfidenceAtLeast(purchasePrice: real, steps: seq<Adjustment>, floors: seq<real>)
    requires |floors| == |steps|
    requires forall k :: 0 <= k < |steps| ==> 0.0 <= floors[k] <= steps[k].confidenceFactor
    ensures 0.0 <= Product(floors) <= RunSteps(purchasePrice, steps).confidence
  {
    if |steps| > 0 {
      var n := |steps| - 1;
      ConfidenceAtLeast(purchasePrice, steps[..n], floors[..n]);
      MulMonotone(Product(floors[..n]), RunSteps(purchasePrice, steps[..n]).confidence, floors[n],
                  steps[n].confidenceFactor);
    }
  }

  lemma ProductOfSeven(a: real, b: real, c: real, d: real, e: real, f: real, g: real)
    ensures Product([a, b, c, d, e, f, g]) == a * b * c * d * e * f * g
  {
    assert [a, b, c, d, e, f, g][..6] == [a, b, c, d, e, f];
    assert [a, b, c, d, e, f][..5] == [a, b, c, d, e];
    assert [a, b, c, d, e][..4] == [a, b, c, d];
    assert [a, b, c, d][..3] == [a, b, c];
    assert [a, b, c][..2] == [a, b];
    assert [a, b][..1] == [a];
    assert Product([a]) == a;
    assert Product([a, b]) == a * b;
    assert Product([a, b, c]) == a * b * c;
    assert Product([a, b, c, d]) == a * b * c * d;
    assert Product([a, b, c, d, e]) == a * b * c * d * e;
    assert Product([a, b, c, d, e, f]) == a * b * c * d * e * f;
  }

  /** The smallest factor each step can apply to the rent. */
  const RentFloors: seq<real> := [0.006, 0.95, 1.0, 1.0, 1.0, 0.85, 1.0]
  /** The smallest factor each step can apply to the confidence. */
  const ConfidenceFloors: seq<real> := [0.5, 0.9, 0.85, 0.9, 0.8, 0.8, 0.85]

  lemma StepsAtLeastFloors(address: string, purchasePrice: real, propertyType: Option<string>, beds: Option<int>,
                           baths: Option<real>, sqft: Option<int>, condition: Option<string>)
    requires sqft.None? || sqft.value != 0
    ensures var steps := StepsOf(address, purchasePrice, propertyType, beds, baths, sqft, condition);
            && (forall k :: 0 <= k < |steps| ==> 0.0 <= RentFloors[k] <= steps[k].rentFactor)
            && (forall k :: 0 <= k < |steps| ==> 0.0 <= ConfidenceFloors[k] <= steps[k].confidenceFactor)
  {
  }

  /**
   * For a purchase price of at least 2 the whole range is positive: the
   * rent is at least 0.4845% of the price, so it does not round to zero.
   */
  lemma EstimatePositive(address: string, purchasePrice: real, propertyType: Option<string>, beds: Option<int>,
                         baths: Option<real>, sqft: Option<int>, condition: Option<string>)
    requires sqft.None? || sqft.value != 0
    requires purchasePrice >= 2.0
    ensures var run := RunSteps(purchasePrice, StepsOf(address, purchasePrice, propertyType, beds, baths, sqft, condition));
            run.rent >= purchasePrice * 0.004845
    ensures var e := RentEstimateOf(address, purchasePrice, propertyType, beds, baths, sqft, condition);
            0.0 < e.low <= e.estimated <= e.high && e.estimated >= purchasePrice * 0.004845 - 0.005
  {
    StepsAtLeastFloors(address, purchasePrice, propertyType, beds, baths, sqft, condition);
    var steps := StepsOf(address, purchasePrice, propertyType, beds, baths, sqft, condition);
    RentAtLeast(purchasePrice, steps, RentFloors);
    ProductOfSeven(0.006, 0.95, 1.0, 1.0, 1.0, 0.85, 1.0);
    RangeBracketsEstimate(address, purchasePrice, propertyType, beds, baths, sqft, condition);
  }

  /** The confidence before rounding is at least the product of the smallest factors, 0.187272. */
  lemma ConfidenceFloor(address: string, purchasePrice: real, propertyType: Option<string>, beds: Option<int>,
                        baths: Option<real>, sqft: Option<int>, condition: Option<string>)
    requires sqft.None? || sqft.value != 0
    ensures var run := RunSteps(purchasePrice, StepsOf(address, purchasePrice, propertyType, beds, baths, sqft, condition));
            run.confidence >= 0.187272
    ensures RentEstimateOf(address, purchasePrice, propertyType, beds, baths, sqft, condition).confidence > 0.18
  {
    StepsAtLeastFloors(address, purchasePrice, propertyType, beds, baths, sqft, condition);
    var steps := StepsOf(address, purchasePrice, propertyType, beds, baths, sqft, condition);
    ConfidenceAtLeast(purchasePrice, steps, ConfidenceFloors);
    ProductOfSeven(0.5, 0.9, 0.85, 0.9, 0.8, 0.8, 0.85);
    ConfidenceCapNeverBinds(address, purchasePrice, propertyType, beds, baths, sqft, condition);
  }
}
