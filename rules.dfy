/** The two heuristics applied around the learned estimate: the business-rule
    adjustment of `apply_business_rules` (car001.py:261-292) and the confidence
    figure of `calculate_confidence` (car001.py:356-374). Both take the current
    year (`datetime.now().year`) as a parameter. */
module Rules {
  import opened Common
  import opened Tables

  /** The age band: an extra discount past ten years, a premium under three. */
  function AgeBand(age: int): real {
    if age > 10 then 0.9 else if age < 3 then 1.05 else 1.0
  }

  /** The mileage band: a discount past 100,000 km, a premium under 20,000 km. */
  function MileageBand(mileage: int): real {
    if mileage > 100000 then 0.92 else if mileage < 20000 then 1.03 else 1.0
  }

  /** The luxury rule: luxury cars lose more under five years and hold value
      from five years on; other brands are not adjusted. */
  function LuxuryBand(brand: string, age: int): real {
    if brand in LuxuryBrands then (if age < 5 then 0.95 else 1.02) else 1.0
  }

  /** `apply_business_rules`: the estimate multiplied in turn by the age band,
      the mileage band and the luxury rule. A non-negative estimate moves by at
      most -17.2% and +8.15%. */
  function ApplyBusinessRules(predicted: real, brand: string, year: int, mileage: int,
                              currentYear: int): (r: real)
    ensures 0.0 <= predicted ==> 0.828 * predicted <= r <= 1.0815 * predicted
    ensures predicted < 0.0 ==> 1.0815 * predicted <= r <= 0.828 * predicted
  {
    var age := currentYear - year;
    var afterAge := predicted * AgeBand(age);
    var afterMileage := afterAge * MileageBand(mileage);
    afterMileage * LuxuryBand(brand, age)
  }

  /** Both ends of the adjustment band are reached: an old, high-mileage car of
      an ordinary brand gets 0.828 and a new, low-mileage one gets 1.0815. */
  lemma AdjustmentBandIsTight(predicted: real, currentYear: int)
    ensures ApplyBusinessRules(predicted, "Tata", currentYear - 11, 100001, currentYear) == 0.828 * predicted
    ensures ApplyBusinessRules(predicted, "Tata", currentYear, 0, currentYear) == 1.0815 * predicted
  {
    assert "Tata" !in LuxuryBrands;
  }

  /** The adjusted price never rises with mileage. */
  lemma RulesNonIncreasingInMileage(predicted: real, brand: string, year: int,
                                    less: int, more: int, currentYear: int)
    requires 0.0 <= predicted && less <= more
    ensures ApplyBusinessRules(predicted, brand, year, more, currentYear) <=
            ApplyBusinessRules(predicted, brand, year, less, currentYear)
  {
    var age := currentYear - year;
    var scaled := predicted * AgeBand(age) * LuxuryBand(brand, age);
    assert 0.0 <= scaled;
    assert MileageBand(more) <= MileageBand(less);
    assert ApplyBusinessRules(predicted, brand, year, more, currentYear) == scaled * MileageBand(more);
    assert ApplyBusinessRules(predicted, brand, year, less, currentYear) == scaled * MileageBand(less);
  }

  /** For a brand outside the luxury list the adjusted price never rises with
      age (an earlier model year). */
  lemma RulesNonIncreasingInAge(predicted: real, brand: string, newer: int, older: int,
                                mileage: int, currentYear: int)
    requires 0.0 <= predicted && older <= newer && brand !in LuxuryBrands
    ensures ApplyBusinessRules(predicted, brand, older, mileage, currentYear) <=
            ApplyBusinessRules(predicted, brand, newer, mileage, currentYear)
  {
    var scaled := predicted * MileageBand(mileage);
    assert 0.0 <= scaled;
    assert AgeBand(currentYear - older) <= AgeBand(currentYear - newer);
    assert ApplyBusinessRules(predicted, brand, older, mileage, currentYear) ==
      scaled * AgeBand(currentYear - older);
    assert ApplyBusinessRules(predicted, brand, newer, mileage, currentYear) ==
      scaled * AgeBand(currentYear - newer);
  }

  /** For a luxury brand the adjusted price is not monotone in age: a positive
      estimate for a five-year-old car is adjusted above the same estimate for
      a four-year-old one (0.95 becomes 1.02). */
  lemma LuxuryFifthYearRise(predicted: real, brand: string, mileage: int, currentYear: int)
    requires 0.0 < predicted && brand in LuxuryBrands
    ensures ApplyBusinessRules(predicted, brand, currentYear - 4, mileage, currentYear) <
            ApplyBusinessRules(predicted, brand, currentYear - 5, mileage, currentYear)
  {
    var scaled := predicted * MileageBand(mileage);
    assert 0.0 < scaled;
    assert ApplyBusinessRules(predicted, brand, currentYear - 4, mileage, currentYear) == scaled * 0.95;
    assert ApplyBusinessRules(predicted, brand, currentYear - 5, mileage, currentYear) == scaled * 1.02;
  }

  /** The luxury rule is the only place the brand enters: a luxury car is
      adjusted to 0.95 times an ordinary brand's figure under five years and to
      1.02 times it from five years on. */
  lemma LuxuryRuleRelative(predicted: real, luxury: string, ordinary: string, year: int,
                           mileage: int, currentYear: int)
    requires luxury in LuxuryBrands && ordinary !in LuxuryBrands
    ensures currentYear - year < 5 ==>
      ApplyBusinessRules(predicted, luxury, year, mileage, currentYear) ==
      0.95 * ApplyBusinessRules(predicted, ordinary, year, mileage, currentYear)
    ensures currentYear - year >= 5 ==>
      ApplyBusinessRules(predicted, luxury, year, mileage, currentYear) ==
      1.02 * ApplyBusinessRules(predicted, ordinary, year, mileage, currentYear)
  {
  }

  // ---------------------------------------------------------------------------
  // calculate_confidence
  // ---------------------------------------------------------------------------

  /** The confidence before the clamp: 85, +5 for a popular brand, +3 for a
      car at most five years old, -5 past 100,000 km. */
  function RawConfidence(brand: string, year: int, mileage: int, currentYear: int): int {
    var base := 85;
    var withBrand := if brand in PopularBrands then base + 5 else base;
    var withAge := if currentYear - year <= 5 then withBrand + 3 else withBrand;
    if mileage > 100000 then withAge - 5 else withAge
  }

  /** `calculate_confidence`: the figure clamped to [70, 95]. */
  function Confidence(brand: string, year: int, mileage: int, currentYear: int): (r: int)
    ensures 70 <= r <= 95
  {
    Min(95, Max(70, RawConfidence(brand, year, mileage, currentYear)))
  }

  /** The unclamped figure already lies in [80, 93], so the clamp never binds. */
  lemma ConfidenceClampNeverBinds(brand: string, year: int, mileage: int, currentYear: int)
    ensures 80 <= RawConfidence(brand, year, mileage, currentYear) <= 93
    ensures Confidence(brand, year, mileage, currentYear) == RawConfidence(brand, year, mileage, currentYear)
  {
  }

  /** Confidence never rises with age or mileage, and a popular brand is
      exactly five points more certain than any other brand. */
  lemma ConfidenceOrdering(brand: string, popular: string, other: string, newer: int, older: int,
                           less: int, more: int, currentYear: int)
    requires older <= newer && less <= more
    requires popular in PopularBrands && other !in PopularBrands
    ensures Confidence(brand, older, more, currentYear) <= Confidence(brand, newer, less, currentYear)
    ensures Confidence(popular, newer, less, currentYear) == Confidence(other, newer, less, currentYear) + 5
  {
    ConfidenceClampNeverBinds(brand, older, more, currentYear);
    ConfidenceClampNeverBinds(brand, newer, less, currentYear);
    ConfidenceClampNeverBinds(popular, newer, less, currentYear);
    ConfidenceClampNeverBinds(other, newer, less, currentYear);
  }
}
