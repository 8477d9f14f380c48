/** `create_synthetic_training_data` (car001.py:28-85): for every brand of the
    catalog and every model of that brand, fifty records whose year, mileage,
    condition, owner type, fuel type and transmission are drawn at random and
    whose price comes from the depreciation formula.

    The draws are a parameter: `draws[k]` holds the raw values numpy produced
    for record k. The current year (`datetime.now().year`) is a parameter. The
    catalog is `CAR_DATABASE` with, per model, the mid base price that
    `get_enhanced_live_prices` returns. */
module Generator {
  import opened Common
  import opened Tables
  import opened Sampling
  import opened Pricing

  const RecordsPerModel: nat := 50
  const EarliestYear: int := 1990
  const MaxAge: int := 20
  const MileageCap: int := 300000
  const MileagePerYear: int := 15000
  const MinMileage: int := 1000

  /** One brand of the catalog: parallel lists indexed by model. */
  datatype BrandEntry = BrandEntry(
    brand: string,
    models: seq<string>,
    carTypes: seq<string>,
    engineCC: seq<int>,
    powerHP: seq<int>,
    seats: seq<int>,
    basePrices: seq<real>)

  predicate ParallelLists(e: BrandEntry) {
    && |e.carTypes| == |e.models|
    && |e.engineCC| == |e.models|
    && |e.powerHP| == |e.models|
    && |e.seats| == |e.models|
    && |e.basePrices| == |e.models|
  }

  predicate CatalogValid(catalog: seq<BrandEntry>) {
    forall b :: 0 <= b < |catalog| ==> ParallelLists(catalog[b])
  }

  /** The raw values numpy produces for one record, in the order the loop body
      draws them: year, mileage, condition, owner type, fuel type, transmission,
      and the noise factor drawn inside the price formula. */
  datatype Draw = Draw(year: nat, mileage: nat, condition: real, owner: real,
                       fuel: nat, transmission: nat, variation: real)

  predicate DrawsValid(draws: seq<Draw>) {
    forall k :: 0 <= k < |draws| ==>
      IsUnit(draws[k].condition) && IsUnit(draws[k].owner) && IsUnit(draws[k].variation)
  }

  /** One row of the training data frame. */
  datatype Record = Record(
    brand: string, model: string, carType: string, year: int,
    fuelType: string, transmission: string, mileage: int,
    engineCC: int, powerHP: int, seats: int,
    condition: string, ownerType: string, price: int)

  /** How the mileage range is bounded. `AsWritten` is the code's
      `randint(1000, min(300000, 15000 * age))`; `NewCarBand` gives a car of age 0
      the small positive band [10, 3000) and is otherwise the same. */
  datatype MileagePolicy = AsWritten | NewCarBand

  /** The half-open year range `randint(max(1990, cy - 20), cy + 1)`. */
  function YearLow(currentYear: int): int {
    Max(EarliestYear, currentYear - MaxAge)
  }

  function MileageLow(age: int, policy: MileagePolicy): int {
    if policy == NewCarBand && age == 0 then 10 else MinMileage
  }

  function MileageHigh(age: int, policy: MileagePolicy): int {
    if policy == NewCarBand && age == 0 then 3000 else Min(MileageCap, MileagePerYear * age)
  }

  /** Where a record's fields must come from: slot (brand index, model index). */
  datatype Slot = Slot(brand: nat, model: nat)

  predicate SlotValid(catalog: seq<BrandEntry>, s: Slot) {
    s.brand < |catalog| && s.model < |catalog[s.brand].models|
  }

  predicate SlotsValid(catalog: seq<BrandEntry>, slots: seq<Slot>) {
    forall k :: 0 <= k < |slots| ==> SlotValid(catalog, slots[k])
  }

  /** Everything the generator guarantees of the record it emits for model i of
      brand entry e: the catalog fields all come from index i of the brand's
      parallel lists, the year and mileage lie in their draw ranges, the
      categorical fields are values of their enumerations and the price is
      floored. */
  ghost predicate RecordFitsEntry(e: BrandEntry, i: nat, currentYear: int, rec: Record,
                                  policy: MileagePolicy)
    requires ParallelLists(e) && i < |e.models|
  {
    && rec.brand == e.brand
    && rec.model == e.models[i]
    && rec.carType == e.carTypes[i]
    && rec.engineCC == e.engineCC[i]
    && rec.powerHP == e.powerHP[i]
    && rec.seats == e.seats[i]
    && YearLow(currentYear) <= rec.year <= currentYear
    && MileageLow(currentYear - rec.year, policy) <= rec.mileage
    && rec.mileage < MileageHigh(currentYear - rec.year, policy)
    && rec.condition in Conditions
    && rec.ownerType in OwnerTypes
    && rec.fuelType in FuelTypes
    && rec.transmission in Transmissions
    && rec.price >= PriceFloor
  }

  ghost predicate RecordFits(catalog: seq<BrandEntry>, currentYear: int, s: Slot,
                             rec: Record, policy: MileagePolicy)
    requires CatalogValid(catalog) && SlotValid(catalog, s)
  {
    RecordFitsEntry(catalog[s.brand], s.model, currentYear, rec, policy)
  }

  /** The body of the innermost loop: one record for model i of a brand. */
  function DrawRecord(e: BrandEntry, i: nat, currentYear: int, d: Draw,
                      policy: MileagePolicy): (r: Result<Record>)
    requires ParallelLists(e) && i < |e.models|
    requires IsUnit(d.condition) && IsUnit(d.owner) && IsUnit(d.variation)
    ensures r.Err? ==> r.error.EmptyRange?
    ensures r.Ok? ==> RecordFitsEntry(e, i, currentYear, r.value, policy)
    ensures r.Ok? ==> r.value.condition == Conditions[WeightedIndex(ConditionWeights, d.condition)]
    ensures r.Ok? ==> r.value.ownerType == OwnerTypes[WeightedIndex(OwnerWeights, d.owner)]
    ensures r.Ok? ==> r.value.price == CalculateRealisticPrice(
      e.basePrices[i], currentYear - r.value.year, r.value.mileage, r.value.condition,
      r.value.ownerType, r.value.fuelType, r.value.transmission, e.brand, e.carTypes[i],
      Uniform(0.92, 1.08, d.variation)).value
  {
    var year :- RandInt(YearLow(currentYear), currentYear + 1, d.year);
    var age := currentYear - year;
    var mileage :- RandInt(MileageLow(age, policy), MileageHigh(age, policy), d.mileage);
    var condition := Conditions[WeightedIndex(ConditionWeights, d.condition)];
    var owner := OwnerTypes[WeightedIndex(OwnerWeights, d.owner)];
    var fuel := RandInt(0, |FuelTypes|, d.fuel).value;
    var transmission := RandInt(0, |Transmissions|, d.transmission).value;
    // The drawn values are keys of their tables, so the formula cannot raise.
    var price := CalculateRealisticPrice(
      e.basePrices[i], age, mileage, condition, owner, FuelTypes[fuel],
      Transmissions[transmission], e.brand, e.carTypes[i], Uniform(0.92, 1.08, d.variation)).value;
    Ok(Record(e.brand, e.models[i], e.carTypes[i], year, FuelTypes[fuel],
              Transmissions[transmission], mileage, e.engineCC[i], e.powerHP[i],
              e.seats[i], condition, owner, price))
  }
  /** The skew of the generated listings: a record comes out in "Good"
      condition exactly when its condition draw falls in [0.3, 0.7), and with a
      first owner exactly when its owner draw falls below 0.4. */
  lemma RecordSkew(e: BrandEntry, i: nat, currentYear: int, d: Draw, policy: MileagePolicy)
    requires ParallelLists(e) && i < |e.models|
    requires IsUnit(d.condition) && IsUnit(d.owner) && IsUnit(d.variation)
    requires DrawRecord(e, i, currentYear, d, policy).Ok?
    ensures DrawRecord(e, i, currentYear, d, policy).value.condition == "Good" <==>
      0.3 <= d.condition < 0.7
    ensures DrawRecord(e, i, currentYear, d, policy).value.ownerType == "First" <==>
      d.owner < 0.4
  {
    GoodConditionBand(d.condition);
    FirstOwnerBand(d.owner);
    ConditionsDistinct(WeightedIndex(ConditionWeights, d.condition));
    OwnerTypesDistinct(WeightedIndex(OwnerWeights, d.owner));
  }

  lemma ConditionsDistinct(k: nat)
    requires k < |Conditions|
    ensures Conditions[k] == "Good" <==> k == 2
  {
  }

  lemma OwnerTypesDistinct(k: nat)
    requires k < |OwnerTypes|
    ensures OwnerTypes[k] == "First" <==> k == 0
  {
  }


  // ---------------------------------------------------------------------------
  // The order in which the nested loops visit the catalog.
  // ---------------------------------------------------------------------------

  function Repeat(s: Slot, n: nat): (r: seq<Slot>)
    ensures |r| == n
  {
    if n == 0 then [] else [s] + Repeat(s, n - 1)
  }

  /** The slots of brand b, models i onwards, fifty each. */
  function BrandSlotsFrom(catalog: seq<BrandEntry>, b: nat, i: nat): seq<Slot>
    requires b < |catalog| && i <= |catalog[b].models|
    decreases |catalog[b].models| - i
  {
    if i == |catalog[b].models| then []
    else Repeat(Slot(b, i), RecordsPerModel) + BrandSlotsFrom(catalog, b, i + 1)
  }

  /** The slots of brands b onwards. */
  function SlotsFrom(catalog: seq<BrandEntry>, b: nat): seq<Slot>
    requires b <= |catalog|
    decreases |catalog| - b
  {
    if b == |catalog| then [] else BrandSlotsFrom(catalog, b, 0) + SlotsFrom(catalog, b + 1)
  }

  /** The slot of every record, in the order the loops emit them: every slot
      names a model of the catalog, fifty slots per model. */
  function Slots(catalog: seq<BrandEntry>): (r: seq<Slot>)
    ensures |r| == RecordsPerModel * ModelCount(catalog)
    ensures SlotsValid(catalog, r)
  {
    SlotsFromShape(catalog, 0);
    assert catalog[0..] == catalog;
    SlotsFrom(catalog, 0)
  }

  function ModelCount(catalog: seq<BrandEntry>): nat {
    if |catalog| == 0 then 0 else |catalog[0].models| + ModelCount(catalog[1..])
  }

  lemma {:induction false} BrandSlotsFromShape(catalog: seq<BrandEntry>, b: nat, i: nat)
    requires b < |catalog| && i <= |catalog[b].models|
    ensures |BrandSlotsFrom(catalog, b, i)| == RecordsPerModel * (|catalog[b].models| - i)
    ensures SlotsValid(catalog, BrandSlotsFrom(catalog, b, i))
    decreases |catalog[b].models| - i
  {
    if i < |catalog[b].models| {
      BrandSlotsFromShape(catalog, b, i + 1);
      var rest := BrandSlotsFrom(catalog, b, i + 1);
      var here := Repeat(Slot(b, i), RecordsPerModel);
      assert forall k :: 0 <= k < |here| ==> here[k] == Slot(b, i) by {
        RepeatElements(Slot(b, i), RecordsPerModel);
      }
      assert BrandSlotsFrom(catalog, b, i) == here + rest;
    }
  }

  lemma {:induction false} RepeatElements(s: Slot, n: nat)
    ensures forall k :: 0 <= k < n ==> Repeat(s, n)[k] == s
  {
    if n > 0 {
      RepeatElements(s, n - 1);
    }
  }

  lemma {:induction false} SlotsFromShape(catalog: seq<BrandEntry>, b: nat)
    requires b <= |catalog|
    ensures |SlotsFrom(catalog, b)| == RecordsPerModel * ModelCount(catalog[b..])
    ensures SlotsValid(catalog, SlotsFrom(catalog, b))
    decreases |catalog| - b
  {
    if b < |catalog| {
      SlotsFromShape(catalog, b + 1);
      BrandSlotsFromShape(catalog, b, 0);
      assert catalog[b..][1..] == catalog[b + 1..];
    }
  }

  /** How many times slot t occurs in a sequence of slots. */
  function Occurrences(slots: seq<Slot>, t: Slot): nat {
    if |slots| == 0 then 0 else (if slots[0] == t then 1 else 0) + Occurrences(slots[1..], t)
  }

  lemma {:induction false} OccurrencesSplit(front: seq<Slot>, back: seq<Slot>, t: Slot)
    ensures Occurrences(front + back, t) == Occurrences(front, t) + Occurrences(back, t)
  {
    if |front| > 0 {
      assert (front + back)[1..] == front[1..] + back;
      OccurrencesSplit(front[1..], back, t);
    } else {
      assert front + back == back;
    }
  }

  /** The count agrees with the multiplicity in the slots' multiset. */
  lemma {:induction false} OccurrencesAreMultiplicity(slots: seq<Slot>, t: Slot)
    ensures Occurrences(slots, t) == multiset(slots)[t]
  {
    if |slots| > 0 {
      assert slots == [slots[0]] + slots[1..];
      OccurrencesAreMultiplicity(slots[1..], t);
    }
  }

  lemma {:induction false} RepeatCount(s: Slot, n: nat, t: Slot)
    ensures Occurrences(Repeat(s, n), t) == if t == s then n else 0
  {
    if n > 0 {
      assert Repeat(s, n)[1..] == Repeat(s, n - 1);
      RepeatCount(s, n - 1, t);
    }
  }

  lemma {:induction false} BrandSlotsFromCount(catalog: seq<BrandEntry>, b: nat, i: nat, t: Slot)
    requires b < |catalog| && i <= |catalog[b].models|
    ensures Occurrences(BrandSlotsFrom(catalog, b, i), t) ==
      if t.brand == b && i <= t.model < |catalog[b].models| then RecordsPerModel else 0
    decreases |catalog[b].models| - i
  {
    if i < |catalog[b].models| {
      BrandSlotsFromCount(catalog, b, i + 1, t);
      RepeatCount(Slot(b, i), RecordsPerModel, t);
      OccurrencesSplit(Repeat(Slot(b, i), RecordsPerModel), BrandSlotsFrom(catalog, b, i + 1), t);
    }
  }

  lemma {:induction false} SlotsFromCount(catalog: seq<BrandEntry>, b: nat, t: Slot)
    requires b <= |catalog|
    ensures Occurrences(SlotsFrom(catalog, b), t) ==
      if b <= t.brand < |catalog| && t.model < |catalog[t.brand].models| then RecordsPerModel else 0
    decreases |catalog| - b
  {
    if b < |catalog| {
      SlotsFromCount(catalog, b + 1, t);
      BrandSlotsFromCount(catalog, b, 0, t);
      OccurrencesSplit(BrandSlotsFrom(catalog, b, 0), SlotsFrom(catalog, b + 1), t);
    }
  }

  /** Every model of the catalog gets exactly fifty records, and no other
      (brand, model) pair gets any. */
  lemma FiftyRecordsPerModel(catalog: seq<BrandEntry>, t: Slot)
    ensures multiset(Slots(catalog))[t] == if SlotValid(catalog, t) then RecordsPerModel else 0
  {
    SlotsFromCount(catalog, 0, t);
    OccurrencesAreMultiplicity(Slots(catalog), t);
  }

  /** The records of a sequence of draw outcomes, or the first failure among
      them: the Python loop stops at the first draw numpy raises on. */
  function Collect(outcomes: seq<Result<Record>>): (r: Result<seq<Record>>)
    ensures r.Ok? ==> |r.value| == |outcomes|
  {
    if |outcomes| == 0 then Ok([])
    else
      var prev :- Collect(outcomes[..|outcomes| - 1]);
      var last :- outcomes[|outcomes| - 1];
      Ok(prev + [last])
  }

  /** Collecting succeeds exactly when every outcome is a record, and then
      yields those records in order; otherwise it yields one of the failures. */
  lemma {:induction false} CollectSound(outcomes: seq<Result<Record>>)
    ensures Collect(outcomes).Ok? <==> forall k :: 0 <= k < |outcomes| ==> outcomes[k].Ok?
    ensures Collect(outcomes).Ok? ==>
      forall k :: 0 <= k < |outcomes| ==> outcomes[k] == Ok(Collect(outcomes).value[k])
    ensures Collect(outcomes).Err? ==> Err(Collect(outcomes).error) in outcomes
  {
    if |outcomes| > 0 {
      var prefix := outcomes[..|outcomes| - 1];
      CollectSound(prefix);
      assert forall k :: 0 <= k < |prefix| ==> prefix[k] == outcomes[k];
    }
  }

  /** Once a prefix has failed, later outcomes do not change the failure. */
  lemma {:induction false} CollectKeepsFailure(outcomes: seq<Result<Record>>, m: nat)
    requires m <= |outcomes| && Collect(outcomes[..m]).Err?
    ensures Collect(outcomes) == Collect(outcomes[..m])
    decreases |outcomes| - m
  {
    if m < |outcomes| {
      assert outcomes[..m + 1][..m] == outcomes[..m];
      assert Collect(outcomes[..m + 1]) == Collect(outcomes[..m]);
      CollectKeepsFailure(outcomes, m + 1);
    } else {
      assert outcomes[..m] == outcomes;
    }
  }

  /** The outcome of the draw for each slot, draw k for slot k. */
  function Outcomes(catalog: seq<BrandEntry>, currentYear: int, draws: seq<Draw>,
                    policy: MileagePolicy): (r: seq<Result<Record>>)
    requires CatalogValid(catalog) && DrawsValid(draws)
    requires |draws| >= RecordsPerModel * ModelCount(catalog)
    ensures |r| == |Slots(catalog)|
  {
    var slots := Slots(catalog);
    seq(|slots|, k requires 0 <= k < |slots| =>
      DrawRecord(catalog[slots[k].brand], slots[k].model, currentYear, draws[k], policy))
  }

  /** The corpus the generator produces for a catalog, a current year and a
      stream of draws: the records of every slot, or the first failing draw. */
  function Corpus(catalog: seq<BrandEntry>, currentYear: int, draws: seq<Draw>,
                  policy: MileagePolicy): (r: Result<seq<Record>>)
    requires CatalogValid(catalog) && DrawsValid(draws)
    requires |draws| >= RecordsPerModel * ModelCount(catalog)
    ensures r.Ok? ==> |r.value| == RecordsPerModel * ModelCount(catalog)
  {
    Collect(Outcomes(catalog, currentYear, draws, policy))
  }

  /** Generation fails only on an empty draw range, and every record of a
      produced corpus fits its slot: it sits at the slot's place in the loop
      order and carries that model's catalog fields. */
  lemma CorpusRecordsFit(catalog: seq<BrandEntry>, currentYear: int, draws: seq<Draw>,
                         policy: MileagePolicy)
    requires CatalogValid(catalog) && DrawsValid(draws)
    requires |draws| >= RecordsPerModel * ModelCount(catalog)
    ensures var r := Corpus(catalog, currentYear, draws, policy);
      r.Err? ==> r.error.EmptyRange?
    ensures var r := Corpus(catalog, currentYear, draws, policy);
      r.Ok? ==> forall k :: 0 <= k < |r.value| ==>
        RecordFits(catalog, currentYear, Slots(catalog)[k], r.value[k], policy)
  {
    CollectSound(Outcomes(catalog, currentYear, draws, policy));
    OutcomesFit(catalog, currentYear, draws, policy);
  }

  /** The outcome for slot m is the draw for that slot, made with draw m. */
  lemma OutcomeAt(catalog: seq<BrandEntry>, currentYear: int, draws: seq<Draw>,
                  policy: MileagePolicy, m: nat)
    requires CatalogValid(catalog) && DrawsValid(draws)
    requires |draws| >= RecordsPerModel * ModelCount(catalog)
    requires m < |Slots(catalog)|
    ensures Outcomes(catalog, currentYear, draws, policy)[m] ==
      DrawRecord(catalog[Slots(catalog)[m].brand], Slots(catalog)[m].model, currentYear, draws[m], policy)
  {
  }

  /** The same for a position known to belong to model i of brand b. */
  lemma ModelOutcomeAt(catalog: seq<BrandEntry>, currentYear: int, draws: seq<Draw>,
                       policy: MileagePolicy, b: nat, i: nat, m: nat)
    requires CatalogValid(catalog) && DrawsValid(draws)
    requires |draws| >= RecordsPerModel * ModelCount(catalog)
    requires b < |catalog| && i < |catalog[b].models|
    requires m < |Slots(catalog)| && Slots(catalog)[m] == Slot(b, i)
    ensures Outcomes(catalog, currentYear, draws, policy)[m] ==
      DrawRecord(catalog[b], i, currentYear, draws[m], policy)
  {
    OutcomeAt(catalog, currentYear, draws, policy, m);
  }

  /** Every draw either fails on an empty range or yields a record that fits
      its slot. */
  lemma OutcomesFit(catalog: seq<BrandEntry>, currentYear: int, draws: seq<Draw>,
                    policy: MileagePolicy)
    requires CatalogValid(catalog) && DrawsValid(draws)
    requires |draws| >= RecordsPerModel * ModelCount(catalog)
    ensures forall k :: 0 <= k < |Slots(catalog)| ==>
      (Outcomes(catalog, currentYear, draws, policy)[k].Err? ==>
         Outcomes(catalog, currentYear, draws, policy)[k].error.EmptyRange?) &&
      (Outcomes(catalog, currentYear, draws, policy)[k].Ok? ==>
         RecordFits(catalog, currentYear, Slots(catalog)[k],
                    Outcomes(catalog, currentYear, draws, policy)[k].value, policy))
  {
    forall k | 0 <= k < |Slots(catalog)|
      ensures (Outcomes(catalog, currentYear, draws, policy)[k].Err? ==>
                 Outcomes(catalog, currentYear, draws, policy)[k].error.EmptyRange?) &&
              (Outcomes(catalog, currentYear, draws, policy)[k].Ok? ==>
                 RecordFits(catalog, currentYear, Slots(catalog)[k],
                            Outcomes(catalog, currentYear, draws, policy)[k].value, policy))
    {
      OutcomeAt(catalog, currentYear, draws, policy, k);
    }
  }

  /** One more outcome after a collected prefix: a record extends the
      records, a failure becomes the result of the whole collection. */
  lemma CollectExtend(outcomes: seq<Result<Record>>, m: nat, records: seq<Record>)
    requires m < |outcomes| && Collect(outcomes[..m]) == Ok(records)
    ensures outcomes[m].Ok? ==> Collect(outcomes[..m + 1]) == Ok(records + [outcomes[m].value])
    ensures outcomes[m].Err? ==> Collect(outcomes) == Err(outcomes[m].error)
  {
    assert outcomes[..m + 1][..m] == outcomes[..m];
    if outcomes[m].Err? {
      CollectKeepsFailure(outcomes, m + 1);
    }
  }

  lemma ConcatAssoc(a: seq<Slot>, b: seq<Slot>, c: seq<Slot>)
    ensures (a + b) + c == a + (b + c)
  {
  }

  /** When the slots still to visit start with a model's fifty, the next fifty
      positions all name that model. */
  lemma BlockOfSlots(slots: seq<Slot>, m: nat, s: Slot, tail: seq<Slot>)
    requires m <= |slots| && slots[m..] == Repeat(s, RecordsPerModel) + tail
    ensures m + RecordsPerModel <= |slots|
    ensures forall k :: m <= k < m + RecordsPerModel ==> slots[k] == s
    ensures slots[m + RecordsPerModel..] == tail
  {
    RepeatElements(s, RecordsPerModel);
    assert forall k :: m <= k < m + RecordsPerModel ==> slots[k] == slots[m..][k - m];
    assert slots[m + RecordsPerModel..] == slots[m..][RecordsPerModel..];
  }

  /** The innermost loop: the fifty records of model i of brand b, drawn with
      the draws that follow the records emitted so far. */
  method DrawModelRecords(catalog: seq<BrandEntry>, currentYear: int, draws: seq<Draw>,
                          policy: MileagePolicy, b: nat, i: nat, records: seq<Record>)
    returns (r: Result<seq<Record>>)
    requires CatalogValid(catalog) && DrawsValid(draws)
    requires |draws| >= RecordsPerModel * ModelCount(catalog)
    requires b < |catalog| && i < |catalog[b].models|
    requires |records| + RecordsPerModel <= |Slots(catalog)|
    requires forall k :: |records| <= k < |records| + RecordsPerModel ==> Slots(catalog)[k] == Slot(b, i)
    requires Collect(Outcomes(catalog, currentYear, draws, policy)[..|records|]) == Ok(records)
    ensures r.Ok? ==>
      r == Collect(Outcomes(catalog, currentYear, draws, policy)[..|records| + RecordsPerModel])
    ensures r.Err? ==> r == Collect(Outcomes(catalog, currentYear, draws, policy))
  {
    ghost var all := Outcomes(catalog, currentYear, draws, policy);
    var entry := catalog[b];
    var acc := records;
    var n := 0;
    while n < RecordsPerModel
      invariant 0 <= n <= RecordsPerModel
      invariant |acc| == |records| + n
      invariant Collect(all[..|acc|]) == Ok(acc)
    {
      var rec := DrawRecord(entry, i, currentYear, draws[|acc|], policy);
      ModelOutcomeAt(catalog, currentYear, draws, policy, b, i, |acc|);
      CollectExtend(all, |acc|, acc);
      if rec.Err? {
        return Err(rec.error);
      }
      acc := acc + [rec.value];
      n := n + 1;
    }
    r := Ok(acc);
  }

  /** The loop over the models of brand b: fifty records per model, in list
      order. */
  method DrawBrandRecords(catalog: seq<BrandEntry>, currentYear: int, draws: seq<Draw>,
                          policy: MileagePolicy, b: nat, records: seq<Record>)
    returns (r: Result<seq<Record>>)
    requires CatalogValid(catalog) && DrawsValid(draws)
    requires |draws| >= RecordsPerModel * ModelCount(catalog)
    requires b < |catalog|
    requires |records| <= |Slots(catalog)| && Slots(catalog)[|records|..] == SlotsFrom(catalog, b)
    requires Collect(Outcomes(catalog, currentYear, draws, policy)[..|records|]) == Ok(records)
    ensures r.Ok? ==> |r.value| <= |Slots(catalog)|
    ensures r.Ok? ==> Slots(catalog)[|r.value|..] == SlotsFrom(catalog, b + 1)
    ensures r.Ok? ==> r == Collect(Outcomes(catalog, currentYear, draws, policy)[..|r.value|])
    ensures r.Err? ==> r == Collect(Outcomes(catalog, currentYear, draws, policy))
  {
    ghost var slots := Slots(catalog);
    var acc := records;
    var i := 0;
    ConcatAssoc([], BrandSlotsFrom(catalog, b, 0), SlotsFrom(catalog, b + 1));
    while i < |catalog[b].models|
      invariant 0 <= i <= |catalog[b].models|
      invariant |acc| <= |slots| && slots[|acc|..] == BrandSlotsFrom(catalog, b, i) + SlotsFrom(catalog, b + 1)
      invariant Collect(Outcomes(catalog, currentYear, draws, policy)[..|acc|]) == Ok(acc)
    {
      ghost var tail := BrandSlotsFrom(catalog, b, i + 1) + SlotsFrom(catalog, b + 1);
      ConcatAssoc(Repeat(Slot(b, i), RecordsPerModel), BrandSlotsFrom(catalog, b, i + 1),
                  SlotsFrom(catalog, b + 1));
      BlockOfSlots(slots, |acc|, Slot(b, i), tail);
      var next := DrawModelRecords(catalog, currentYear, draws, policy, b, i, acc);
      if next.Err? {
        return next;
      }
      acc := next.value;
      i := i + 1;
    }
    assert BrandSlotsFrom(catalog, b, i) == [];
    assert [] + SlotsFrom(catalog, b + 1) == SlotsFrom(catalog, b + 1);
    r := Ok(acc);
  }

  /** The generator: brands in catalog order, models in list order, fifty
      records each, appended one at a time; a failing draw aborts it. */
  method CreateSyntheticTrainingData(catalog: seq<BrandEntry>, currentYear: int,
                                     draws: seq<Draw>, policy: MileagePolicy)
    returns (r: Result<seq<Record>>)
    requires CatalogValid(catalog) && DrawsValid(draws)
    requires |draws| >= RecordsPerModel * ModelCount(catalog)
    ensures r == Corpus(catalog, currentYear, draws, policy)
  {
    ghost var all := Outcomes(catalog, currentYear, draws, policy);
    ghost var slots := Slots(catalog);
    var records: seq<Record> := [];
    var b := 0;
    assert slots[0..] == slots;
    while b < |catalog|
      invariant 0 <= b <= |catalog|
      invariant |records| <= |slots| && slots[|records|..] == SlotsFrom(catalog, b)
      invariant Collect(all[..|records|]) == Ok(records)
    {
      var next := DrawBrandRecords(catalog, currentYear, draws, policy, b, records);
      if next.Err? {
        return next;
      }
      records := next.value;
      b := b + 1;
    }
    assert |records| == |slots|;
    assert all[..|records|] == all;
    r := Ok(records);
  }

  // ---------------------------------------------------------------------------
  // When the generator fails.
  // ---------------------------------------------------------------------------

  /** The mileage range of a car of the drawn age is non-empty exactly when
      the car is at least a year old, or when it is new and the new-car band
      applies. */
  lemma MileageRangeNonEmpty(age: int, policy: MileagePolicy)
    requires 0 <= age <= MaxAge
    ensures MileageLow(age, policy) < MileageHigh(age, policy) <==> (age >= 1 || policy == NewCarBand)
  {
  }

  /** With a current year of 1990 or later, one record's draw fails exactly
      when the code as written draws the current year, and the failure is
      then numpy's `randint(1000, 0)`. */
  lemma DrawFailsOnlyOnNewCar(e: BrandEntry, i: nat, currentYear: int, d: Draw,
                              policy: MileagePolicy)
    requires ParallelLists(e) && i < |e.models|
    requires IsUnit(d.condition) && IsUnit(d.owner) && IsUnit(d.variation)
    requires currentYear >= EarliestYear
    ensures DrawRecord(e, i, currentYear, d, policy).Err? <==>
      policy == AsWritten && RandInt(YearLow(currentYear), currentYear + 1, d.year) == Ok(currentYear)
    ensures DrawRecord(e, i, currentYear, d, policy).Err? ==>
      DrawRecord(e, i, currentYear, d, policy).error == EmptyRange(MinMileage, 0)
  {
    var year := RandInt(YearLow(currentYear), currentYear + 1, d.year);
    assert year.Ok?;
    MileageRangeNonEmpty(currentYear - year.value, policy);
  }

  /** A brand-new car breaks the code as written: a raw year draw that lands
      on the current year makes the record fail with `randint(1000, 0)`,
      while the new-car band yields a record for the same draw. */
  lemma BrandNewCarDraw(e: BrandEntry, i: nat, currentYear: int, d: Draw)
    requires ParallelLists(e) && i < |e.models|
    requires IsUnit(d.condition) && IsUnit(d.owner) && IsUnit(d.variation)
    requires currentYear >= EarliestYear && YearLow(currentYear) + d.year == currentYear
    ensures DrawRecord(e, i, currentYear, d, AsWritten) == Err(EmptyRange(MinMileage, 0))
    ensures DrawRecord(e, i, currentYear, d, NewCarBand).Ok?
  {
    RandIntReaches(YearLow(currentYear), currentYear + 1, currentYear);
    DrawFailsOnlyOnNewCar(e, i, currentYear, d, AsWritten);
    DrawFailsOnlyOnNewCar(e, i, currentYear, d, NewCarBand);
  }

  /** The corpus of the code as written: it is produced exactly when no draw
      lands on the current year, and otherwise generation stops with numpy's
      `randint(1000, 0)` error. */
  lemma AsWrittenCorpus(catalog: seq<BrandEntry>, currentYear: int, draws: seq<Draw>)
    requires CatalogValid(catalog) && DrawsValid(draws)
    requires |draws| >= RecordsPerModel * ModelCount(catalog)
    requires currentYear >= EarliestYear
    ensures Corpus(catalog, currentYear, draws, AsWritten).Ok? <==>
      forall k :: 0 <= k < |Slots(catalog)| ==>
        RandInt(YearLow(currentYear), currentYear + 1, draws[k].year) != Ok(currentYear)
    ensures Corpus(catalog, currentYear, draws, AsWritten).Err? ==>
      Corpus(catalog, currentYear, draws, AsWritten).error == EmptyRange(MinMileage, 0)
  {
    var slots := Slots(catalog);
    var outcomes := Outcomes(catalog, currentYear, draws, AsWritten);
    CollectSound(outcomes);
    forall k | 0 <= k < |slots|
      ensures outcomes[k].Err? <==>
        RandInt(YearLow(currentYear), currentYear + 1, draws[k].year) == Ok(currentYear)
      ensures outcomes[k].Err? ==> outcomes[k].error == EmptyRange(MinMileage, 0)
    {
      OutcomeAt(catalog, currentYear, draws, AsWritten, k);
      DrawFailsOnlyOnNewCar(catalog[slots[k].brand], slots[k].model, currentYear, draws[k], AsWritten);
    }
  }

  /** With the new-car band, generation never fails: every draw yields a
      record and the corpus holds fifty records per model. */
  lemma NewCarBandNeverFails(catalog: seq<BrandEntry>, currentYear: int, draws: seq<Draw>)
    requires CatalogValid(catalog) && DrawsValid(draws)
    requires |draws| >= RecordsPerModel * ModelCount(catalog)
    requires currentYear >= EarliestYear
    ensures Corpus(catalog, currentYear, draws, NewCarBand).Ok?
  {
    var slots := Slots(catalog);
    var outcomes := Outcomes(catalog, currentYear, draws, NewCarBand);
    CollectSound(outcomes);
    forall k | 0 <= k < |slots|
      ensures outcomes[k].Ok?
    {
      OutcomeAt(catalog, currentYear, draws, NewCarBand, k);
      DrawFailsOnlyOnNewCar(catalog[slots[k].brand], slots[k].model, currentYear, draws[k], NewCarBand);
    }
  }
}
