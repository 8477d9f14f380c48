/** The depreciation formula `calculate_realistic_price` (car001.py:87-154):
    a base price scaled by an age factor, a mileage factor, five table
    multipliers and a noise factor, truncated and floored at 50,000.

    Prices are exact reals: floating-point rounding is not modelled, only the
    final `int(...)` truncation. The noise factor `np.random.uniform(0.92, 1.08)`
    drawn inside the function is its parameter `variation`. */
module Pricing {
  import opened Common
  import opened Tables

  /** 0.85 to the power n: fifteen percent depreciation per year. */
  function DepreciationPow(n: nat): (r: real)
    ensures 0.0 < r <= 1.0
    ensures n > 0 ==> r < 1.0
  {
    if n == 0 then 1.0 else 0.85 * DepreciationPow(n - 1)
  }

  /** `0.85 ** age`; Python also accepts a negative age, giving a factor above 1. */
  function AgeDepreciation(age: int): (r: real)
    ensures r > 0.0
    ensures age >= 0 <==> r <= 1.0
  {
    if age >= 0 then DepreciationPow(age) else 1.0 / DepreciationPow(-age)
  }

  /** `max(0.3, 1 - mileage / 200000)` with Python's true division. */
  function MileageFactor(mileage: int): (r: real)
    ensures r >= 0.3
    ensures mileage >= 0 ==> r <= 1.0
    ensures mileage >= 140000 ==> r == 0.3
  {
    MaxR(0.3, 1.0 - mileage as real / 200000.0)
  }

  /** The product of the condition, owner, fuel and transmission multipliers,
      or the KeyError the first missing key raises (Python evaluates the
      product left to right). */
  function KeyedMultiplier(condition: string, owner: string, fuel: string,
                           transmission: string): (r: Result<real>)
    ensures r.Ok? <==>
      condition in Conditions && owner in OwnerTypes && fuel in FuelTypes && transmission in Transmissions
    ensures r.Err? ==> r.error.KeyError?
    ensures r.Ok? ==> 0.65 * 0.82 * 0.9 <= r.value <= 1.15 * 1.08 * 1.15 * 1.1
  {
    if ConditionMultiplier(condition).None? then Err(KeyError("condition_multipliers", condition))
    else if OwnerMultiplier(owner).None? then Err(KeyError("owner_multipliers", owner))
    else if FuelAdjustment(fuel).None? then Err(KeyError("fuel_adjustments", fuel))
    else if TransmissionAdjustment(transmission).None? then
      Err(KeyError("transmission_adjustments", transmission))
    else
      var c, o := ConditionMultiplier(condition).value, OwnerMultiplier(owner).value;
      var f, t := FuelAdjustment(fuel).value, TransmissionAdjustment(transmission).value;
      FourFactorBounds(c, o, f, t);
      Ok(c * o * f * t)
  }

  /** The five table multipliers of the formula: the four keyed ones times the
      brand premium, which never raises. The product lies between the product
      of the smallest table entries and that of the largest ones. */
  function TableMultiplier(condition: string, owner: string, fuel: string,
                           transmission: string, brand: string): (r: Result<real>)
    ensures r.Ok? <==>
      condition in Conditions && owner in OwnerTypes && fuel in FuelTypes && transmission in Transmissions
    ensures r.Err? ==> r.error.KeyError?
    ensures r.Ok? ==> 0.65 * 0.82 * 0.9 <= r.value <= 1.15 * 1.08 * 1.15 * 1.1 * 1.6
  {
    match KeyedMultiplier(condition, owner, fuel, transmission)
    case Err(e) => Err(e)
    case Ok(keyed) =>
      var premium := BrandPremium(brand);
      PremiumScaledBounds(keyed, premium);
      Ok(keyed * premium)
  }

  lemma PremiumScaledBounds(keyed: real, premium: real)
    requires 0.65 * 0.82 * 0.9 <= keyed <= 1.15 * 1.08 * 1.15 * 1.1 && 1.0 <= premium <= 1.6
    ensures 0.65 * 0.82 * 0.9 <= keyed * premium <= 1.15 * 1.08 * 1.15 * 1.1 * 1.6
  {
    BoundedProduct(0.65 * 0.82 * 0.9, keyed, 1.15 * 1.08 * 1.15 * 1.1, 1.0, premium, 1.6);
  }

  lemma FourFactorBounds(c: real, o: real, f: real, t: real)
    requires 0.65 <= c <= 1.15 && 0.82 <= o <= 1.08 && 0.9 <= f <= 1.15 && 1.0 <= t <= 1.1
    ensures 0.65 * 0.82 * 0.9 <= c * o * f * t <= 1.15 * 1.08 * 1.15 * 1.1
  {
    BoundedProduct(0.65, c, 1.15, 0.82, o, 1.08);
    BoundedProduct(0.65 * 0.82, c * o, 1.15 * 1.08, 0.9, f, 1.15);
    BoundedProduct(0.65 * 0.82 * 0.9, c * o * f, 1.15 * 1.08 * 1.15, 1.0, t, 1.1);
  }

  lemma BoundedProduct(xlo: real, x: real, xhi: real, ylo: real, y: real, yhi: real)
    requires 0.0 <= xlo <= x <= xhi && 0.0 <= ylo <= y <= yhi
    ensures xlo * ylo <= x * y <= xhi * yhi
  {
    assert xlo * ylo <= x * ylo <= x * y;
    assert x * y <= xhi * y <= xhi * yhi;
  }

  /** The real-valued price before truncation. */
  function RawPrice(basePrice: real, age: int, mileage: int, multiplier: real, variation: real): real {
    Scaled(basePrice, AgeDepreciation(age), MileageFactor(mileage), multiplier, variation)
  }

  /** The formula's product, left to right as written. */
  function Scaled(basePrice: real, age: real, mileage: real, multiplier: real, variation: real): real {
    basePrice * age * mileage * multiplier * variation
  }

  /** `calculate_realistic_price`. The car type is passed by the generator but
      not used by the formula. */
  function CalculateRealisticPrice(basePrice: real, age: int, mileage: int, condition: string,
                                   owner: string, fuel: string, transmission: string,
                                   brand: string, carType: string, variation: real): (r: Result<int>)
    ensures r.Ok? <==>
      condition in Conditions && owner in OwnerTypes && fuel in FuelTypes && transmission in Transmissions
    ensures r.Err? ==> r.error.KeyError?
    ensures r.Ok? ==> r.value >= PriceFloor
    ensures r.Ok? ==> r.value == Floored(Trunc(RawPrice(basePrice, age, mileage,
      TableMultiplier(condition, owner, fuel, transmission, brand).value, variation)))
  {
    var multiplier :- TableMultiplier(condition, owner, fuel, transmission, brand);
    Ok(Floored(Trunc(RawPrice(basePrice, age, mileage, multiplier, variation))))
  }

  // ---------------------------------------------------------------------------
  // Monotonicity.
  // ---------------------------------------------------------------------------

  lemma {:induction false} DepreciationPowDecreasing(m: nat, n: nat)
    requires m < n
    ensures DepreciationPow(n) < DepreciationPow(m)
  {
    if n == m + 1 {
      assert DepreciationPow(n) == 0.85 * DepreciationPow(m);
    } else {
      DepreciationPowDecreasing(m, n - 1);
      assert DepreciationPow(n) == 0.85 * DepreciationPow(n - 1);
    }
  }

  /** The age factor strictly decreases with age, over all integers. */
  lemma AgeDepreciationDecreasing(older: int, younger: int)
    requires younger < older
    ensures AgeDepreciation(older) < AgeDepreciation(younger)
  {
    if 0 <= younger {
      DepreciationPowDecreasing(younger, older);
    } else if older < 0 {
      var a, b := DepreciationPow(-younger), DepreciationPow(-older);
      DepreciationPowDecreasing(-older, -younger);
      ReciprocalDecreasing(a, b);
    }
  }

  lemma ReciprocalDecreasing(a: real, b: real)
    requires 0.0 < a < b
    ensures 1.0 / b < 1.0 / a
  {
    var ia, ib := 1.0 / a, 1.0 / b;
    assert ia * a == 1.0 && ib * b == 1.0;
    assert 0.0 < ia;
    assert ia * a < ia * b;
    assert ia * b > ib * b;
    CancelPositive(ia, ib, b);
  }

  lemma CancelPositive(x: real, y: real, k: real)
    requires 0.0 < k && x * k > y * k
    ensures x > y
  {
    assert (x - y) * k > 0.0;
  }

  lemma AgeDepreciationNonIncreasing(younger: int, older: int)
    requires younger <= older
    ensures AgeDepreciation(older) <= AgeDepreciation(younger)
  {
    if younger < older {
      AgeDepreciationDecreasing(older, younger);
    }
  }

  /** The mileage factor never increases as mileage grows. */
  lemma MileageFactorNonIncreasing(less: int, more: int)
    requires less <= more
    ensures MileageFactor(more) <= MileageFactor(less)
  {
    assert more as real / 200000.0 >= less as real / 200000.0;
  }

  lemma ScaleMonotone(k: real, x: real, y: real)
    requires 0.0 <= k && x <= y
    ensures k * x <= k * y
  {
  }

  /** The age and mileage factors together never increase with age or
      mileage. */
  lemma WearFactorMonotone(younger: int, older: int, less: int, more: int)
    requires younger <= older && less <= more
    ensures 0.0 <= AgeDepreciation(older) * MileageFactor(more)
                <= AgeDepreciation(younger) * MileageFactor(less)
  {
    AgeDepreciationNonIncreasing(younger, older);
    MileageFactorNonIncreasing(less, more);
    BoundedProduct(0.0, AgeDepreciation(older), AgeDepreciation(younger),
                   0.0, MileageFactor(more), MileageFactor(less));
  }

  /** The real-valued price is non-increasing in age and in mileage for any
      non-negative base price, multiplier and noise factor. */
  lemma RawPriceMonotone(basePrice: real, younger: int, older: int, less: int, more: int,
                         multiplier: real, variation: real)
    requires basePrice >= 0.0 && multiplier >= 0.0 && variation >= 0.0
    requires younger <= older && less <= more
    ensures RawPrice(basePrice, older, more, multiplier, variation)
         <= RawPrice(basePrice, younger, less, multiplier, variation)
  {
    WearFactorMonotone(younger, older, less, more);
    ScaledWearMonotone(basePrice, multiplier, variation, AgeDepreciation(older), MileageFactor(more),
                       AgeDepreciation(younger), MileageFactor(less));
  }

  /** Scaling by a non-negative base price, multiplier and noise factor keeps
      the order of two wear factors. */
  lemma ScaledWearMonotone(p: real, mu: real, v: real, a2: real, m2: real, a1: real, m1: real)
    requires p >= 0.0 && mu >= 0.0 && v >= 0.0 && a2 * m2 <= a1 * m1
    ensures Scaled(p, a2, m2, mu, v) <= Scaled(p, a1, m1, mu, v)
  {
    var k := p * mu * v;
    BoundedProduct(0.0, p, p, 0.0, mu, mu);
    BoundedProduct(0.0, p * mu, p * mu, 0.0, v, v);
    ScaleMonotone(k, a2 * m2, a1 * m1);
    Regroup(p, a2, m2, mu, v);
    Regroup(p, a1, m1, mu, v);
  }

  lemma Regroup(p: real, a: real, m: real, mu: real, v: real)
    ensures p * a * m * mu * v == (p * mu * v) * (a * m)
  {
    calc {
      p * a * m * mu * v;
      p * (a * m) * mu * v;
      (p * mu * v) * (a * m);
    }
  }

  /** With a non-negative base price and noise factor and every other argument
      fixed, an older car or one with more mileage is never priced above a younger
      one or one with less mileage. */
  lemma PriceNonIncreasing(basePrice: real, younger: int, older: int, less: int, more: int,
                           condition: string, owner: string, fuel: string,
                           transmission: string, brand: string, carType: string,
                           variation: real)
    requires basePrice >= 0.0 && variation >= 0.0 && younger <= older && less <= more
    requires CalculateRealisticPrice(basePrice, younger, less, condition, owner, fuel,
                                     transmission, brand, carType, variation).Ok?
    ensures CalculateRealisticPrice(basePrice, older, more, condition, owner, fuel,
                                    transmission, brand, carType, variation).value
         <= CalculateRealisticPrice(basePrice, younger, less, condition, owner, fuel,
                                    transmission, brand, carType, variation).value
  {
    var mult := TableMultiplier(condition, owner, fuel, transmission, brand).value;
    RawPriceMonotone(basePrice, younger, older, less, more, mult, variation);
    FlooredTruncMonotone(RawPrice(basePrice, older, more, mult, variation),
                         RawPrice(basePrice, younger, less, mult, variation));
  }

  /** The brand enters the price only through its premium: two brands with
      the same premium get the same table multiplier, hence the same price. */
  lemma BrandEntersOnlyByPremium(condition: string, owner: string, fuel: string,
                                 transmission: string, brand: string, other: string)
    requires BrandPremium(brand) == BrandPremium(other)
    ensures TableMultiplier(condition, owner, fuel, transmission, brand)
         == TableMultiplier(condition, owner, fuel, transmission, other)
  {
  }

  lemma UnknownBrandPremium(brand: string)
    requires brand !in PremiumBrands
    ensures BrandPremium(brand) == 1.0
  {
  }

  /** A brand missing from the premium table is priced exactly like a mainstream
      brand whose premium is 1.0 (Tata, for one). */
  lemma UnknownBrandPricedAtPremiumOne(basePrice: real, age: int, mileage: int,
                                      condition: string, owner: string, fuel: string,
                                      transmission: string, brand: string, carType: string,
                                      variation: real)
    requires brand !in PremiumBrands
    ensures CalculateRealisticPrice(basePrice, age, mileage, condition, owner, fuel,
                                    transmission, brand, carType, variation)
         == CalculateRealisticPrice(basePrice, age, mileage, condition, owner, fuel,
                                    transmission, "Tata", carType, variation)
  {
    UnknownBrandPremium(brand);
    BrandEntersOnlyByPremium(condition, owner, fuel, transmission, brand, "Tata");
  }
}
