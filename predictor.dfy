/** The learned part of `EnhancedCarPricePredictor` (car001.py:21-259): the
    predictor object whose `model`, `encoders`, `scaler` and
    `feature_importance` fields are set by `train_model`, and `predict_price`,
    which trains on first use, encodes the request and averages the two
    regressors before the business rules and the 50,000 floor.

    scikit-learn is a parameter: a `Learner` supplies the fitted label codes,
    the fitted scaler and the two fitted regressors, each as an opaque
    function of the data it is fitted on. */
module Predictor {
  import opened Common
  import opened Generator
  import opened Rules

  /** The feature columns of the data frame. */
  datatype Column =
    | Brand | Model | CarType | Year | FuelType | Transmission
    | Mileage | EngineCC | PowerHP | Seats | Condition | OwnerType

  /** The model's input columns, in the order the regressors see them. */
  const Features: seq<Column> :=
    [Brand, Model, CarType, Year, FuelType, Transmission, Mileage, EngineCC, PowerHP, Seats,
     Condition, OwnerType]

  /** The columns that are label-encoded. */
  const Categorical: seq<Column> := [Brand, Model, CarType, FuelType, Transmission, Condition, OwnerType]

  /** The columns that are standardised. */
  const Numerical: seq<Column> := [Year, Mileage, EngineCC, PowerHP, Seats]

  /** One listing to price (`input_data`): every feature column. */
  datatype CarInput = CarInput(
    brand: string, model: string, carType: string, year: int,
    fuelType: string, transmission: string, mileage: int,
    engineCC: int, powerHP: int, seats: int,
    condition: string, ownerType: string)

  /** A training row as the model sees it: the record without its price. */
  function AsInput(rec: Record): CarInput {
    CarInput(rec.brand, rec.model, rec.carType, rec.year, rec.fuelType, rec.transmission,
             rec.mileage, rec.engineCC, rec.powerHP, rec.seats, rec.condition, rec.ownerType)
  }

  /** The text in a categorical column of a listing. */
  function Label(input: CarInput, c: Column): string
    requires c in Categorical
  {
    match c
    case Brand => input.brand
    case Model => input.model
    case CarType => input.carType
    case FuelType => input.fuelType
    case Transmission => input.transmission
    case Condition => input.condition
    case OwnerType => input.ownerType
  }

  /** The number in a numerical column of a listing. */
  function Number(input: CarInput, c: Column): real
    requires c in Numerical
  {
    match c
    case Year => input.year as real
    case Mileage => input.mileage as real
    case EngineCC => input.engineCC as real
    case PowerHP => input.powerHP as real
    case Seats => input.seats as real
  }

  // ---------------------------------------------------------------------------
  // The fitted scikit-learn objects, kept opaque.
  // ---------------------------------------------------------------------------

  /** A fitted regressor: its prediction on a feature vector and, for the
      forest, its feature importances. */
  datatype Regressor = Regressor(predict: seq<real> -> real, importances: seq<real>)

  /** The ensemble `{'rf': ..., 'gb': ...}`. */
  datatype Ensemble = Ensemble(forest: Regressor, boost: Regressor)

  /** A standard deviation as StandardScaler keeps it: a zero deviation is
      replaced by 1, so the divisor is positive. */
  type Deviation = x: real | x > 0.0 witness 1.0

  /** A fitted StandardScaler: a mean and a deviation per numerical column. */
  datatype Scaler = Scaler(mean: Column -> real, deviation: Column -> Deviation)

  function Standardize(s: Scaler, c: Column, x: real): real {
    (x - s.mean(c)) / s.deviation(c)
  }

  /** scikit-learn as far as the engine uses it. `code(c, column, text)` is
      the code LabelEncoder fitted on `column` gives the label `text`; the other three
      fit a scaler on the raw numerical columns and the two regressors on the
      encoded rows and the prices. */
  datatype Learner = Learner(
    code: (Column, seq<string>, string) -> int,
    fitScaler: map<Column, seq<real>> -> Scaler,
    fitForest: (seq<seq<real>>, seq<int>) -> Regressor,
    fitBoost: (seq<seq<real>>, seq<int>) -> Regressor)

  /** What the predictor reads from outside: the catalog, the clock, the
      seeded draws and the learning library. */
  datatype Environment = Environment(
    catalog: seq<BrandEntry>, currentYear: int, draws: seq<Draw>, learner: Learner)

  predicate EnvironmentValid(env: Environment) {
    && CatalogValid(env.catalog)
    && DrawsValid(env.draws)
    && |env.draws| >= RecordsPerModel * ModelCount(env.catalog)
    && env.currentYear >= EarliestYear
  }

  // ---------------------------------------------------------------------------
  // Encoding a listing.
  // ---------------------------------------------------------------------------

  /** `encoder.transform([text])[0]`, with the `ValueError` of an unseen label
      caught and replaced by 0. */
  function EncodeLabel(encoder: map<string, int>, text: string): (r: int)
    ensures text !in encoder ==> r == 0
    ensures text in encoder ==> r in encoder.Values
  {
    if text in encoder then encoder[text] else 0
  }

  /** The value of column c once the listing is encoded and scaled. */
  function FeatureValue(encoders: map<Column, map<string, int>>, scaler: Scaler,
                        input: CarInput, c: Column): real
    requires forall k :: k in Categorical ==> k in encoders
  {
    if c in Categorical then EncodeLabel(encoders[c], Label(input, c)) as real
    else if c in Numerical then Standardize(scaler, c, Number(input, c))
    else 0.0
  }

  /** The feature vector the regressors see, in `Features` order. */
  function FeatureVector(encoders: map<Column, map<string, int>>, scaler: Scaler,
                         input: CarInput): (r: seq<real>)
    requires forall k :: k in Categorical ==> k in encoders
    ensures |r| == |Features|
  {
    seq(|Features|, i requires 0 <= i < |Features| => FeatureValue(encoders, scaler, input, Features[i]))
  }

  /** Membership in a growing prefix of a column list. */
  lemma PrefixStep(columns: seq<Column>, j: nat)
    requires j < |columns|
    ensures forall d :: d in columns[..j + 1] <==> d in columns[..j] || d == columns[j]
  {
    assert columns[..j + 1] == columns[..j] + [columns[j]];
  }

  /** Every feature column is either categorical or numerical. */
  lemma ColumnsPartitionFeatures(c: Column)
    ensures c in Features
    ensures c in Categorical <==> c !in Numerical
  {
  }

  /** A label the encoder of its column has not seen encodes to 0, whatever
      it is: two listings that differ only in unseen labels give the
      regressors the same vector. */
  lemma UnseenLabelsIndistinguishable(encoders: map<Column, map<string, int>>, scaler: Scaler,
                                      a: CarInput, b: CarInput)
    requires forall k :: k in Categorical ==> k in encoders
    requires forall c :: c in Numerical ==> Number(a, c) == Number(b, c)
    requires forall c :: c in Categorical ==>
      Label(a, c) == Label(b, c) || (Label(a, c) !in encoders[c] && Label(b, c) !in encoders[c])
    ensures forall c :: c in Categorical && Label(a, c) !in encoders[c] ==>
      FeatureValue(encoders, scaler, a, c) == 0.0
    ensures FeatureVector(encoders, scaler, a) == FeatureVector(encoders, scaler, b)
  {
    forall i | 0 <= i < |Features|
      ensures FeatureVector(encoders, scaler, a)[i] == FeatureVector(encoders, scaler, b)[i]
    {
      ColumnsPartitionFeatures(Features[i]);
    }
  }

  /** The method form of the encoding: the request's data frame is rewritten
      column by column, categorical columns first, then the numerical ones,
      and its columns read out in `Features` order. */
  method EncodeRequest(encoders: map<Column, map<string, int>>, scaler: Scaler, input: CarInput)
    returns (x: seq<real>)
    requires forall k :: k in Categorical ==> k in encoders
    ensures x == FeatureVector(encoders, scaler, input)
  {
    var row: map<Column, real> := map[];
    for j := 0 to |Categorical|
      invariant forall c :: c in row <==> c in Categorical[..j]
      invariant forall c :: c in row ==> row[c] == FeatureValue(encoders, scaler, input, c)
    {
      var c := Categorical[j];
      PrefixStep(Categorical, j);
      var text := Label(input, c);
      var code := 0;
      if text in encoders[c] {
        code := encoders[c][text];
      }
      row := row[c := code as real];
    }
    for j := 0 to |Numerical|
      invariant forall c :: c in row <==> c in Categorical || c in Numerical[..j]
      invariant forall c :: c in row ==> row[c] == FeatureValue(encoders, scaler, input, c)
    {
      var c := Numerical[j];
      ColumnsPartitionFeatures(c);
      PrefixStep(Numerical, j);
      row := row[c := Standardize(scaler, c, Number(input, c))];
    }
    forall c | true
      ensures c in row
    {
      ColumnsPartitionFeatures(c);
    }
    x := seq(|Features|, i requires 0 <= i < |Features| => row[Features[i]]);
  }

  // ---------------------------------------------------------------------------
  // Prediction.
  // ---------------------------------------------------------------------------

  /** The ensemble estimate: the mean of the two regressors' predictions. */
  function Estimate(ensemble: Ensemble, x: seq<real>): (r: real)
    ensures ensemble.forest.predict(x) <= ensemble.boost.predict(x) ==>
      ensemble.forest.predict(x) <= r <= ensemble.boost.predict(x)
    ensures ensemble.boost.predict(x) <= ensemble.forest.predict(x) ==>
      ensemble.boost.predict(x) <= r <= ensemble.forest.predict(x)
    ensures r - ensemble.forest.predict(x) == ensemble.boost.predict(x) - r
  {
    (ensemble.forest.predict(x) + ensemble.boost.predict(x)) / 2.0
  }

  /** The price `predict_price` returns once a model is in place. */
  function Prediction(ensemble: Ensemble, encoders: map<Column, map<string, int>>, scaler: Scaler,
                      input: CarInput, currentYear: int): (r: int)
    requires forall k :: k in Categorical ==> k in encoders
    ensures r >= PriceFloor
  {
    var estimate := Estimate(ensemble, FeatureVector(encoders, scaler, input));
    Floored(Trunc(ApplyBusinessRules(estimate, input.brand, input.year, input.mileage, currentYear)))
  }

  /** The estimate lies between the two regressors' predictions, and for a
      non-negative estimate the price lies between the floored, truncated
      estimate scaled by 0.828 and by 1.0815. */
  lemma PredictionBand(ensemble: Ensemble, encoders: map<Column, map<string, int>>, scaler: Scaler,
                       input: CarInput, currentYear: int)
    requires forall k :: k in Categorical ==> k in encoders
    ensures var x := FeatureVector(encoders, scaler, input);
      MinR(ensemble.forest.predict(x), ensemble.boost.predict(x)) <= Estimate(ensemble, x)
        <= MaxR(ensemble.forest.predict(x), ensemble.boost.predict(x))
    ensures var estimate := Estimate(ensemble, FeatureVector(encoders, scaler, input));
      0.0 <= estimate ==>
        Floored(Trunc(0.828 * estimate)) <= Prediction(ensemble, encoders, scaler, input, currentYear)
          <= Floored(Trunc(1.0815 * estimate))
  {
    var estimate := Estimate(ensemble, FeatureVector(encoders, scaler, input));
    var adjusted := ApplyBusinessRules(estimate, input.brand, input.year, input.mileage, currentYear);
    if 0.0 <= estimate {
      FlooredTruncMonotone(0.828 * estimate, adjusted);
      FlooredTruncMonotone(adjusted, 1.0815 * estimate);
    }
  }

  // ---------------------------------------------------------------------------
  // Training.
  // ---------------------------------------------------------------------------

  /** The training frame: the synthetic corpus with the new-car mileage band,
      which never fails for a current year of 1990 or later. */
  function TrainingData(env: Environment): (r: seq<Record>)
    requires EnvironmentValid(env)
    ensures |r| == RecordsPerModel * ModelCount(env.catalog)
  {
    NewCarBandNeverFails(env.catalog, env.currentYear, env.draws);
    Corpus(env.catalog, env.currentYear, env.draws, NewCarBand).value
  }

  /** Column c of the training frame, as text. */
  function LabelColumn(data: seq<Record>, c: Column): (r: seq<string>)
    requires c in Categorical
    ensures |r| == |data|
  {
    seq(|data|, k requires 0 <= k < |data| => Label(AsInput(data[k]), c))
  }

  /** Column c of the training frame, as numbers. */
  function NumberColumn(data: seq<Record>, c: Column): (r: seq<real>)
    requires c in Numerical
    ensures |r| == |data|
  {
    seq(|data|, k requires 0 <= k < |data| => Number(AsInput(data[k]), c))
  }

  /** The training frame's numerical columns, the scaler's input. */
  function NumberColumns(data: seq<Record>): map<Column, seq<real>> {
    map c | c in Numerical :: NumberColumn(data, c)
  }

  /** `LabelEncoder().fit(column)`: a code for exactly the labels the column
      holds. */
  function FitEncoder(learner: Learner, c: Column, column: seq<string>): (r: map<string, int>)
    ensures forall text :: text in r <==> text in column
  {
    map text | text in column :: learner.code(c, column, text)
  }

  /** The encoders `train_model` stores, one per categorical column. */
  function Encoders(learner: Learner, data: seq<Record>): (r: map<Column, map<string, int>>)
    ensures forall c :: c in r <==> c in Categorical
  {
    map c | c in Categorical :: FitEncoder(learner, c, LabelColumn(data, c))
  }

  /** The encoded, scaled training rows: each record's feature vector. */
  function TrainingRows(encoders: map<Column, map<string, int>>, scaler: Scaler,
                        data: seq<Record>): (r: seq<seq<real>>)
    requires forall k :: k in Categorical ==> k in encoders
    ensures |r| == |data|
  {
    seq(|data|, k requires 0 <= k < |data| => FeatureVector(encoders, scaler, AsInput(data[k])))
  }

  function Prices(data: seq<Record>): (r: seq<int>)
    ensures |r| == |data|
  {
    seq(|data|, k requires 0 <= k < |data| => data[k].price)
  }

  /** `dict(zip(names, values))`: pairs up to the shorter list, inserted in
      order. */
  function Zip(names: seq<Column>, values: seq<real>): (r: seq<(Column, real)>)
    ensures |r| == Min(|names|, |values|)
    ensures forall i :: 0 <= i < |r| ==> r[i] == (names[i], values[i])
  {
    if |names| == 0 || |values| == 0 then [] else [(names[0], values[0])] + Zip(names[1..], values[1..])
  }

  function Dict(pairs: seq<(Column, real)>): map<Column, real> {
    if |pairs| == 0 then map[] else Dict(pairs[..|pairs| - 1])[pairs[|pairs| - 1].0 := pairs[|pairs| - 1].1]
  }

  /** The dictionary's keys are exactly the keys of the list. */
  lemma {:induction false} DictKeys(pairs: seq<(Column, real)>)
    ensures Dict(pairs).Keys == set i | 0 <= i < |pairs| :: pairs[i].0
  {
    if |pairs| > 0 {
      var prefix := pairs[..|pairs| - 1];
      DictKeys(prefix);
      var last := |pairs| - 1;
      assert forall i :: 0 <= i < |prefix| ==> prefix[i] == pairs[i];
      assert (set i | 0 <= i < |pairs| :: pairs[i].0) ==
        (set i | 0 <= i < |prefix| :: prefix[i].0) + {pairs[last].0};
    }
  }

  /** With distinct keys, the dictionary maps each key of the list to its own
      value. */
  lemma {:induction false} DictValues(pairs: seq<(Column, real)>)
    requires forall i, j :: 0 <= i < j < |pairs| ==> pairs[i].0 != pairs[j].0
    ensures forall i :: 0 <= i < |pairs| ==> pairs[i].0 in Dict(pairs) && Dict(pairs)[pairs[i].0] == pairs[i].1
  {
    if |pairs| > 0 {
      var prefix := pairs[..|pairs| - 1];
      DictValues(prefix);
      forall i | 0 <= i < |pairs|
        ensures pairs[i].0 in Dict(pairs) && Dict(pairs)[pairs[i].0] == pairs[i].1
      {
        if i < |prefix| {
          assert prefix[i] == pairs[i];
        }
      }
    }
  }

  /** The place of a column in `Features`. */
  function Position(c: Column): nat {
    match c
    case Brand => 0
    case Model => 1
    case CarType => 2
    case Year => 3
    case FuelType => 4
    case Transmission => 5
    case Mileage => 6
    case EngineCC => 7
    case PowerHP => 8
    case Seats => 9
    case Condition => 10
    case OwnerType => 11
  }

  lemma FeaturePositions()
    ensures forall i :: 0 <= i < |Features| ==> Position(Features[i]) == i
  {
  }

  /** `feature_importance` holds, for each of the first
      min(12, |importances|) features, its own importance, and nothing else. */
  lemma FeatureImportancePairs(importances: seq<real>)
    ensures Dict(Zip(Features, importances)).Keys ==
      set i | 0 <= i < Min(|Features|, |importances|) :: Features[i]
    ensures forall i :: 0 <= i < Min(|Features|, |importances|) ==>
      Dict(Zip(Features, importances))[Features[i]] == importances[i]
  {
    var pairs := Zip(Features, importances);
    FeaturePairsDistinct(pairs, importances);
    DictKeys(pairs);
    DictValues(pairs);
    SameKeySets(pairs, Features, importances);
  }

  lemma FeaturePairsDistinct(pairs: seq<(Column, real)>, importances: seq<real>)
    requires pairs == Zip(Features, importances)
    ensures forall i, j :: 0 <= i < j < |pairs| ==> pairs[i].0 != pairs[j].0
  {
    FeaturePositions();
    forall i, j | 0 <= i < j < |pairs|
      ensures pairs[i].0 != pairs[j].0
    {
      assert Position(pairs[i].0) == i && Position(pairs[j].0) == j;
    }
  }

  lemma SameKeySets(pairs: seq<(Column, real)>, names: seq<Column>, values: seq<real>)
    requires |pairs| == Min(|names|, |values|)
    requires forall i :: 0 <= i < |pairs| ==> pairs[i] == (names[i], values[i])
    ensures (set i | 0 <= i < |pairs| :: pairs[i].0) == set i | 0 <= i < Min(|names|, |values|) :: names[i]
  {
    var listed := set i | 0 <= i < |pairs| :: pairs[i].0;
    forall i | 0 <= i < |pairs|
      ensures names[i] in listed
    {
      assert pairs[i].0 == names[i];
    }
  }

  /** Everything `train_model` stores. */
  datatype Fitted = Fitted(
    encoders: map<Column, map<string, int>>, scaler: Scaler, ensemble: Ensemble,
    importance: map<Column, real>)

  /** What training on the environment's corpus produces. */
  function Fit(env: Environment): (r: Fitted)
    requires EnvironmentValid(env)
    ensures forall c :: c in r.encoders <==> c in Categorical
  {
    var data := TrainingData(env);
    var encoders := Encoders(env.learner, data);
    var scaler := env.learner.fitScaler(NumberColumns(data));
    var rows := TrainingRows(encoders, scaler, data);
    var forest := env.learner.fitForest(rows, Prices(data));
    var boost := env.learner.fitBoost(rows, Prices(data));
    Fitted(encoders, scaler, Ensemble(forest, boost), Dict(Zip(Features, forest.importances)))
  }

  /** Training never hits the unseen-label fallback: every label of the
      training frame is a key of its column's encoder. */
  lemma TrainingLabelsAreSeen(env: Environment, k: nat, c: Column)
    requires EnvironmentValid(env)
    requires k < |TrainingData(env)| && c in Categorical
    ensures Label(AsInput(TrainingData(env)[k]), c) in Fit(env).encoders[c]
  {
    var data := TrainingData(env);
    assert LabelColumn(data, c)[k] == Label(AsInput(data[k]), c);
  }

  /** The categorical half of the feature preparation in `train_model`:
      for each categorical column in turn, fit an encoder on it and replace
      the column by its codes. */
  method EncodeColumns(learner: Learner, data: seq<Record>)
    returns (fitted: map<Column, map<string, int>>, columns: map<Column, seq<real>>)
    ensures fitted == Encoders(learner, data)
    ensures forall c :: c in columns <==> c in Categorical
    ensures forall c :: c in columns ==> |columns[c]| == |data|
    ensures forall c, k :: c in columns && 0 <= k < |data| ==>
      columns[c][k] == EncodeLabel(fitted[c], LabelColumn(data, c)[k]) as real
  {
    columns := map[];
    fitted := map[];
    for j := 0 to |Categorical|
      invariant forall c :: c in fitted <==> c in Categorical[..j]
      invariant forall c :: c in fitted ==> fitted[c] == FitEncoder(learner, c, LabelColumn(data, c))
      invariant forall c :: c in columns <==> c in Categorical[..j]
      invariant forall c :: c in columns ==> |columns[c]| == |data|
      invariant forall c, k :: c in columns && 0 <= k < |data| ==>
        columns[c][k] == EncodeLabel(fitted[c], LabelColumn(data, c)[k]) as real
    {
      var c := Categorical[j];
      PrefixStep(Categorical, j);
      var texts := LabelColumn(data, c);
      var encoder := FitEncoder(learner, c, texts);
      fitted := fitted[c := encoder];
      columns := columns[c := seq(|texts|, k requires 0 <= k < |texts| => encoder[texts[k]] as real)];
    }
    assert Categorical[..|Categorical|] == Categorical;
  }

  /** The numerical half: each numerical column is replaced by its
      standardised values. */
  method ScaleColumns(standard: Scaler, data: seq<Record>, columns: map<Column, seq<real>>)
    returns (scaled: map<Column, seq<real>>)
    requires forall c :: c in columns <==> c in Categorical
    ensures forall c :: c in scaled <==> c in Categorical || c in Numerical
    ensures forall c :: c in Categorical ==> scaled[c] == columns[c]
    ensures forall c :: c in Numerical ==> |scaled[c]| == |data|
    ensures forall c, k :: c in Numerical && 0 <= k < |data| ==>
      scaled[c][k] == Standardize(standard, c, NumberColumn(data, c)[k])
  {
    scaled := columns;
    for j := 0 to |Numerical|
      invariant forall c :: c in scaled <==> c in Categorical || c in Numerical[..j]
      invariant forall c :: c in Categorical ==> scaled[c] == columns[c]
      invariant forall c :: c in Numerical[..j] ==> |scaled[c]| == |data|
      invariant forall c, k :: c in Numerical[..j] && 0 <= k < |data| ==>
        scaled[c][k] == Standardize(standard, c, NumberColumn(data, c)[k])
    {
      var c := Numerical[j];
      ColumnsPartitionFeatures(c);
      PrefixStep(Numerical, j);
      var raw := NumberColumn(data, c);
      scaled := scaled[c := seq(|raw|, k requires 0 <= k < |raw| => Standardize(standard, c, raw[k]))];
    }
    assert Numerical[..|Numerical|] == Numerical;
  }

  /** The feature preparation of `train_model`: the fitted encoders, the
      scaler fitted on the raw numerical columns, and the rows handed to the
      regressors, which are the records' feature vectors. */
  method PrepareFeatures(learner: Learner, data: seq<Record>)
    returns (fitted: map<Column, map<string, int>>, standard: Scaler, rows: seq<seq<real>>)
    ensures fitted == Encoders(learner, data)
    ensures standard == learner.fitScaler(NumberColumns(data))
    ensures rows == TrainingRows(fitted, standard, data)
  {
    var encoded;
    fitted, encoded := EncodeColumns(learner, data);
    standard := learner.fitScaler(NumberColumns(data));
    var columns := ScaleColumns(standard, data, encoded);
    forall c, k | 0 <= k < |data|
      ensures c in columns && |columns[c]| == |data|
      ensures columns[c][k] == FeatureValue(fitted, standard, AsInput(data[k]), c)
    {
      ColumnsPartitionFeatures(c);
      if c in Categorical {
        assert LabelColumn(data, c)[k] == Label(AsInput(data[k]), c);
      } else {
        assert NumberColumn(data, c)[k] == Number(AsInput(data[k]), c);
      }
    }
    rows := seq(|data|, k requires 0 <= k < |data| =>
              seq(|Features|, i requires 0 <= i < |Features| => columns[Features[i]][k]));
    forall k | 0 <= k < |data|
      ensures rows[k] == FeatureVector(fitted, standard, AsInput(data[k]))
    {
      assert forall i :: 0 <= i < |Features| ==>
        rows[k][i] == FeatureVector(fitted, standard, AsInput(data[k]))[i];
    }
  }

  // ---------------------------------------------------------------------------
  // The predictor object.
  // ---------------------------------------------------------------------------

  class CarPricePredictor {
    var model: Option<Ensemble>
    var scaler: Option<Scaler>
    var encoders: map<Column, map<string, int>>
    var featureImportance: map<Column, real>

    /** Once a model is stored, so are the scaler and an encoder per
        categorical column. */
    ghost predicate Valid()
      reads this
    {
      model.Some? ==> scaler.Some? && forall k :: k in Categorical ==> k in encoders
    }

    /** The stored training results, once there is a model. */
    function Stored(): Option<Fitted>
      reads this
    {
      if model.Some? && scaler.Some? then Some(Fitted(encoders, scaler.value, model.value, featureImportance))
      else None
    }

    /** A fresh predictor holds no model: the first prediction trains one. */
    constructor()
      ensures Valid()
      ensures model.None? && scaler.None? && encoders == map[] && featureImportance == map[]
    {
      model := None;
      scaler := None;
      encoders := map[];
      featureImportance := map[];
    }

    /** `train_model`: generate the corpus, encode the categorical columns
        one by one, scale the numerical ones, fit both regressors and store
        everything. */
    method TrainModel(env: Environment)
      requires EnvironmentValid(env)
      modifies this
      ensures Valid() && Stored() == Some(Fit(env))
    {
      var corpus := CreateSyntheticTrainingData(env.catalog, env.currentYear, env.draws, NewCarBand);
      NewCarBandNeverFails(env.catalog, env.currentYear, env.draws);
      var data := corpus.value;
      var fitted, standard, rows := PrepareFeatures(env.learner, data);
      var prices := Prices(data);
      var forest := env.learner.fitForest(rows, prices);
      var boost := env.learner.fitBoost(rows, prices);
      encoders := fitted;
      scaler := Some(standard);
      featureImportance := Dict(Zip(Features, forest.importances));
      model := Some(Ensemble(forest, boost));
    }

    /** `predict_price`: train on first use, then encode the listing, average
        the two regressors, apply the business rules, truncate and floor. A
        stored model is reused as it is. */
    method PredictPrice(input: CarInput, env: Environment) returns (price: int)
      requires EnvironmentValid(env) && Valid()
      modifies this
      ensures Valid() && model.Some?
      ensures old(model).None? ==> Stored() == Some(Fit(env))
      ensures old(model).Some? ==> unchanged(this)
      ensures price == Prediction(model.value, encoders, scaler.value, input, env.currentYear)
      ensures price >= PriceFloor
    {
      if model.None? {
        TrainModel(env);
      }
      price := Appraise(input, env.currentYear);
    }

    /** The part of `predict_price` after the training check: encode the
        listing, average the two regressors, apply the business rules,
        truncate and floor. */
    method Appraise(input: CarInput, currentYear: int) returns (price: int)
      requires Valid() && model.Some?
      ensures price == Prediction(model.value, encoders, scaler.value, input, currentYear)
    {
      var x := EncodeRequest(encoders, scaler.value, input);
      var rf := model.value.forest.predict(x);
      var gb := model.value.boost.predict(x);
      var estimate := (rf + gb) / 2.0;
      var adjusted := ApplyBusinessRules(estimate, input.brand, input.year, input.mileage, currentYear);
      price := Floored(Trunc(adjusted));
    }
  }
}
