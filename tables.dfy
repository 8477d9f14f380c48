/** The constant lookup tables of the pricing engine: the multipliers used by the
    depreciation formula (car001.py:98-142), the brand lists of the business rules
    and of the confidence heuristic, and the integer tables of the price
    breakdown (car001.py:421-455). */
module Tables {
  import opened Common

  // ---------------------------------------------------------------------------
  // Enumerations. The Python file draws from CAR_CONDITIONS, OWNER_TYPES,
  // FUEL_TYPES and TRANSMISSIONS, which it does not define; they are taken here
  // to be the key lists of the multiplier tables, in table order.
  // ---------------------------------------------------------------------------

  const Conditions: seq<string> := ["Excellent", "Very Good", "Good", "Fair", "Poor"]
  const OwnerTypes: seq<string> := ["First", "Second", "Third", "Fourth & Above"]
  const FuelTypes: seq<string> := ["Petrol", "Diesel", "CNG", "Electric", "Hybrid"]
  const Transmissions: seq<string> := ["Manual", "Automatic", "CVT", "DCT", "AMT"]

  // ---------------------------------------------------------------------------
  // Multiplier tables of calculate_realistic_price. A missing key is a KeyError
  // in the source (plain indexing), so these return an Option; each table is
  // defined exactly on its enumeration, so drawn values never miss.
  // ---------------------------------------------------------------------------

  function ConditionMultiplier(condition: string): (r: Option<real>)
    ensures r.Some? <==> condition in Conditions
    ensures r.Some? ==> 0.65 <= r.value <= 1.15
  {
    match condition
    case "Excellent" => Some(1.15)
    case "Very Good" => Some(1.05)
    case "Good" => Some(1.0)
    case "Fair" => Some(0.85)
    case "Poor" => Some(0.65)
    case _ => None
  }

  function OwnerMultiplier(owner: string): (r: Option<real>)
    ensures r.Some? <==> owner in OwnerTypes
    ensures r.Some? ==> 0.82 <= r.value <= 1.08
  {
    match owner
    case "First" => Some(1.08)
    case "Second" => Some(1.0)
    case "Third" => Some(0.92)
    case "Fourth & Above" => Some(0.82)
    case _ => None
  }

  function FuelAdjustment(fuel: string): (r: Option<real>)
    ensures r.Some? <==> fuel in FuelTypes
    ensures r.Some? ==> 0.9 <= r.value <= 1.15
  {
    match fuel
    case "Petrol" => Some(1.0)
    case "Diesel" => Some(1.05)
    case "CNG" => Some(0.9)
    case "Electric" => Some(1.15)
    case "Hybrid" => Some(1.1)
    case _ => None
  }

  function TransmissionAdjustment(transmission: string): (r: Option<real>)
    ensures r.Some? <==> transmission in Transmissions
    ensures r.Some? ==> 1.0 <= r.value <= 1.1
  {
    match transmission
    case "Manual" => Some(1.0)
    case "Automatic" => Some(1.08)
    case "CVT" => Some(1.05)
    case "DCT" => Some(1.1)
    case "AMT" => Some(1.02)
    case _ => None
  }

  /** `brand_premium.get(brand, 1.0)`: the brand table, 1.0 for unknown brands;
      a premium is never a discount and at most 1.6. */
  function BrandPremium(brand: string): (r: real)
    ensures 1.0 <= r <= 1.6
  {
    match brand
    case "Maruti Suzuki" => 1.02
    case "Hyundai" => 1.01
    case "Tata" => 1.0
    case "Mahindra" => 1.01
    case "Toyota" => 1.05
    case "Honda" => 1.03
    case "Kia" => 1.02
    case "Volkswagen" => 1.02
    case "Skoda" => 1.01
    case "Renault" => 1.0
    case "Nissan" => 1.0
    case "MG" => 1.03
    case "Ford" => 1.0
    case "BMW" => 1.25
    case "Mercedes-Benz" => 1.28
    case "Audi" => 1.26
    case "Lexus" => 1.22
    case "Jaguar" => 1.2
    case "Land Rover" => 1.23
    case "Porsche" => 1.35
    case "Volvo" => 1.18
    case "Maserati" => 1.3
    case "Bentley" => 1.4
    case "Rolls-Royce" => 1.5
    case "Lamborghini" => 1.45
    case "Ferrari" => 1.48
    case "Aston Martin" => 1.38
    case "McLaren" => 1.42
    case "Bugatti" => 1.6
    case _ => 1.0
  }

  /** The keys of the brand premium table, in table order. */
  const PremiumBrands: seq<string> := [
    "Maruti Suzuki", "Hyundai", "Tata", "Mahindra", "Toyota", "Honda", "Kia", "Volkswagen",
    "Skoda", "Renault", "Nissan", "MG", "Ford", "BMW", "Mercedes-Benz", "Audi",
    "Lexus", "Jaguar", "Land Rover", "Porsche", "Volvo", "Maserati", "Bentley", "Rolls-Royce",
    "Lamborghini", "Ferrari", "Aston Martin", "McLaren", "Bugatti"]

  /** The brands the business rules treat as luxury (car001.py:281-283). */
  const LuxuryBrands: seq<string> := [
    "BMW", "Mercedes-Benz", "Audi", "Lexus", "Jaguar", "Land Rover",
    "Porsche", "Volvo", "Maserati", "Bentley", "Rolls-Royce",
    "Lamborghini", "Ferrari", "Aston Martin", "McLaren", "Bugatti"]

  /** The brands the confidence heuristic treats as popular (car001.py:361). */
  const PopularBrands: seq<string> := ["Maruti Suzuki", "Hyundai", "Tata", "Mahindra", "Honda", "Toyota"]

  // ---------------------------------------------------------------------------
  // Facts about the multiplier tables.
  // ---------------------------------------------------------------------------

  /** Conditions and owner types are listed best first: their multipliers
      strictly decrease along the enumeration. */
  lemma RankedTablesDecrease(i: nat, j: nat)
    requires i < j
    ensures j < |Conditions| ==>
      ConditionMultiplier(Conditions[j]).value < ConditionMultiplier(Conditions[i]).value
    ensures j < |OwnerTypes| ==>
      OwnerMultiplier(OwnerTypes[j]).value < OwnerMultiplier(OwnerTypes[i]).value
  {
  }

  /** Every luxury brand carries a premium of at least 1.18, every popular brand
      one of at most 1.05. */
  lemma LuxuryBrandsArePremium(brand: string)
    ensures brand in LuxuryBrands ==> BrandPremium(brand) >= 1.18
    ensures brand in PopularBrands ==> BrandPremium(brand) <= 1.05
  {
    if brand in LuxuryBrands {
      var i :| 0 <= i < |LuxuryBrands| && LuxuryBrands[i] == brand;
      LuxuryPremiumAt(i);
    }
    if brand in PopularBrands {
      var i :| 0 <= i < |PopularBrands| && PopularBrands[i] == brand;
      PopularPremiumAt(i);
    }
  }

  lemma LuxuryPremiumAt(i: nat)
    requires i < |LuxuryBrands|
    ensures BrandPremium(LuxuryBrands[i]) >= 1.18
  {
    // The branches are empty on purpose: each one narrows i to a quarter of
    // the list, so that the solver looks up only those entries at a time.
    if i < 8 {
      if i < 4 {
      } else {
      }
    } else {
      if i < 12 {
      } else {
      }
    }
  }

  lemma PopularPremiumAt(i: nat)
    requires i < |PopularBrands|
    ensures BrandPremium(PopularBrands[i]) <= 1.05
  {
  }

  // ---------------------------------------------------------------------------
  // Breakdown lookups (free functions of car001.py): integer tables defaulting
  // to 0 for an unknown key.
  // ---------------------------------------------------------------------------

  function ConditionPremium(condition: string): (r: int)
    ensures condition !in Conditions ==> r == 0
    ensures -50000 <= r <= 50000
  {
    match condition
    case "Excellent" => 50000
    case "Very Good" => 25000
    case "Good" => 0
    case "Fair" => -20000
    case "Poor" => -50000
    case _ => 0
  }

  function OwnerImpact(owner: string): (r: int)
    ensures owner !in OwnerTypes ==> r == 0
    ensures -30000 <= r <= 30000
  {
    match owner
    case "First" => 30000
    case "Second" => 0
    case "Third" => -15000
    case "Fourth & Above" => -30000
    case _ => 0
  }

  /** The nine brands the brand value factor table has an entry for. */
  const FactorBrands: seq<string> := [
    "Maruti Suzuki", "Toyota", "Honda", "Hyundai", "Tata", "Mahindra",
    "BMW", "Mercedes-Benz", "Audi"]

  function BrandFactor(brand: string): (r: int)
    ensures brand !in FactorBrands ==> r == 0
    ensures brand in FactorBrands ==> r > 0
    ensures 0 <= r <= 60000
  {
    match brand
    case "Maruti Suzuki" => 20000
    case "Toyota" => 25000
    case "Honda" => 20000
    case "Hyundai" => 15000
    case "Tata" => 10000
    case "Mahindra" => 12000
    case "BMW" => 50000
    case "Mercedes-Benz" => 60000
    case "Audi" => 45000
    case _ => 0
  }

  /** The breakdown agrees in sign with the pricing formula: a condition or owner
      type shows a positive (negative, zero) premium exactly when its multiplier
      is above (below, equal to) 1; an unknown key shows 0. */
  lemma BreakdownSignAgreesWithMultipliers(key: string)
    ensures ConditionMultiplier(key).Some? ==>
      (ConditionPremium(key) > 0 <==> ConditionMultiplier(key).value > 1.0) &&
      (ConditionPremium(key) < 0 <==> ConditionMultiplier(key).value < 1.0)
    ensures ConditionMultiplier(key).None? ==> ConditionPremium(key) == 0
    ensures OwnerMultiplier(key).Some? ==>
      (OwnerImpact(key) > 0 <==> OwnerMultiplier(key).value > 1.0) &&
      (OwnerImpact(key) < 0 <==> OwnerMultiplier(key).value < 1.0)
    ensures OwnerMultiplier(key).None? ==> OwnerImpact(key) == 0
  {
  }

  /** Only brands listed as popular or luxury get a non-zero brand factor, and
      every luxury brand with a factor has a larger one than every popular
      brand. */
  lemma BrandFactorBounds(brand: string, other: string)
    ensures BrandFactor(brand) != 0 ==> brand in PopularBrands + LuxuryBrands
    ensures brand in LuxuryBrands && BrandFactor(brand) != 0 && other in PopularBrands ==>
      BrandFactor(other) < BrandFactor(brand)
  {
    if other in PopularBrands {
      var j :| 0 <= j < |PopularBrands| && PopularBrands[j] == other;
      PopularFactorAt(j);
    }
    if brand in LuxuryBrands {
      var i :| 0 <= i < |LuxuryBrands| && LuxuryBrands[i] == brand;
      LuxuryFactorAt(i);
    }
  }

  lemma PopularFactorAt(j: nat)
    requires j < |PopularBrands|
    ensures BrandFactor(PopularBrands[j]) <= 25000
  {
  }

  lemma LuxuryFactorAt(i: nat)
    requires i < |LuxuryBrands|
    ensures BrandFactor(LuxuryBrands[i]) == 0 || BrandFactor(LuxuryBrands[i]) >= 45000
  {
    // The branches are empty on purpose: each one narrows i to a quarter of
    // the list, so that the solver looks up only those entries at a time.
    if i < 8 {
      if i < 4 {
      } else {
      }
    } else {
      if i < 12 {
      } else {
      }
    }
  }

  /** The breakdown premiums are ordered like the enumerations, best first. */
  lemma BreakdownOrdered(i: nat, j: nat)
    requires i < j
    ensures j < |Conditions| ==> ConditionPremium(Conditions[j]) < ConditionPremium(Conditions[i])
    ensures j < |OwnerTypes| ==> OwnerImpact(OwnerTypes[j]) < OwnerImpact(OwnerTypes[i])
  {
  }
}
