# Car pricing engine: a verified model

This project models the pricing engine of `car001.py`, a used-car price
predictor. It covers five parts:

- The depreciation formula `calculate_realistic_price`. A base price is scaled
  by `0.85^age`, a mileage factor floored at 0.3, the condition, owner, fuel,
  transmission and brand tables, and a noise factor. The result is truncated
  and floored at 50,000.
- The synthetic training-data generator `create_synthetic_training_data`. It
  emits 50 records per catalog model, drawing each record's year, mileage,
  condition, owner type, fuel and transmission at random.
- The predictor object `EnhancedCarPricePredictor`:
  - `train_model` sets the `model`, `encoders`, `scaler` and
    `feature_importance` fields;
  - `predict_price` trains on first use, encodes the listing (an unseen label
    becomes 0), averages the forest and boosting predictions, applies the
    business rules, then truncates and floors at 50,000.
- The heuristics `apply_business_rules` and `calculate_confidence`.
- The breakdown lookups `get_condition_premium`, `get_owner_impact` and
  `get_brand_factor`.

Prices are exact reals. Only Python's `int()` truncation is modelled, not
floating-point rounding.

Parameters stand in for everything outside the engine:
- Randomness: each record's raw numpy draws are a `Draw`. `Sampling` maps a
  draw into its range the way `randint`, `uniform` and weighted `choice` do.
- The clock: the current year is passed in.
- The catalog: a sequence of brand entries holding parallel lists.
- scikit-learn: a `Learner` value whose fitted encoders, scaler and regressors
  are opaque functions of the data they are fitted on.

Modules:
- `Common`: results, truncation, the floor.
- `Tables`: the lookup tables and brand lists.
- `Pricing`: the formula.
- `Sampling`: numpy draws.
- `Generator`: the nested generation loops, as methods proved against the
  function `Corpus`.
- `Rules`: the business rules and confidence.
- `Predictor`: encoding, prediction, and the `CarPricePredictor` class with
  lazy training.

The code cannot draw a mileage for a new car. It draws a car's mileage with
`randint(1000, min(300000, 15000 * age))`, and that range is empty for a car of
age 0. What the code makes evident is only that the range should be non-empty:
it has a lower bound of 1000 and a `min` cap. The model keeps both versions:
- `MileagePolicy.AsWritten` is the code, and its failure is characterised
  under "## Findings".
- `MileagePolicy.NewCarBand` is the model's chosen correction. It gives a new
  car the small positive band [10, 3000) and is otherwise the same. The exact
  bounds are a choice; the proofs need only a non-empty band. Training uses it.

## Model

| member | source | states |
|---|---|---|
| Common.Trunc | car001.py:154 | `int()` of a float truncates toward zero: for x ≥ 0 the result is the largest integer not above x, for x < 0 the smallest not below it |
| Common.Floored | car001.py:154 | `max(50000, n)` is at least 50,000, and it is n itself unless n is below the floor |
| Common.TruncMonotone | car001.py:154 | truncation never reverses the order of two prices |
| Common.FlooredTruncMonotone | car001.py:259 | truncating then flooring keeps the order of two prices |
| Tables.ConditionMultiplier | car001.py:98-104 | the condition table is defined exactly on the five conditions, with multipliers in [0.65, 1.15] |
| Tables.OwnerMultiplier | car001.py:107-112 | the owner table is defined exactly on the four owner types, with multipliers in [0.82, 1.08] |
| Tables.FuelAdjustment | car001.py:115-121 | the fuel table is defined exactly on the five fuel types, with adjustments in [0.9, 1.15] |
| Tables.TransmissionAdjustment | car001.py:124-130 | the transmission table is defined exactly on the five transmissions, with adjustments in [1.0, 1.1] |
| Tables.BrandPremium | car001.py:133-148 | `brand_premium.get(brand, 1.0)` is never a discount and at most 1.6 |
| Tables.RankedTablesDecrease | car001.py:98-112 | the condition and owner multipliers strictly decrease along their enumerations, best first |
| Tables.LuxuryBrandsArePremium | car001.py:133-142 | every luxury brand has a premium of at least 1.18, every popular brand one of at most 1.05 |
| Tables.ConditionPremium | car001.py:421-430 | the condition premium is 0 for any key outside the five conditions and lies in [-50000, 50000] |
| Tables.OwnerImpact | car001.py:432-440 | the owner impact is 0 for any key outside the four owner types and lies in [-30000, 30000] |
| Tables.BrandFactor | car001.py:442-455 | `factors.get(brand, 0)`: a brand outside the nine-key table gets 0, a brand in it gets a positive factor, and every factor lies in [0, 60000] |
| Tables.BreakdownSignAgreesWithMultipliers | car001.py:421-440 | a condition or owner type shows a positive (negative) breakdown premium exactly when its pricing multiplier is above (below) 1; an unknown key shows 0 |
| Tables.BreakdownOrdered | car001.py:421-440 | condition premiums and owner impacts strictly decrease along the enumerations |
| Tables.BrandFactorBounds | car001.py:442-455 | only popular and luxury brands get a non-zero factor, and a luxury brand with a factor outranks every popular brand |
| Pricing.DepreciationPow | car001.py:92 | `0.85^n` lies in (0, 1], and below 1 once n > 0 |
| Pricing.AgeDepreciation | car001.py:92 | the age factor is positive, and at most 1 exactly when the age is non-negative |
| Pricing.DepreciationPowDecreasing | car001.py:92 | `0.85^n` strictly decreases in n |
| Pricing.AgeDepreciationDecreasing | car001.py:92 | an older car has a strictly smaller age factor, negative ages included |
| Pricing.AgeDepreciationNonIncreasing | car001.py:92 | the age factor never increases with age |
| Pricing.MileageFactor | car001.py:95 | the mileage factor is at least 0.3, at most 1 for non-negative mileage, and exactly 0.3 from 140,000 km |
| Pricing.MileageFactorNonIncreasing | car001.py:95 | the mileage factor never increases with mileage |
| Pricing.WearFactorMonotone | car001.py:92-95 | the product of the age and mileage factors is non-negative and never increases with age or mileage |
| Pricing.KeyedMultiplier | car001.py:145-147 | the four keyed lookups succeed exactly when every key is in its table, otherwise raise a KeyError; the product lies between the products of the smallest and largest entries |
| Pricing.TableMultiplier | car001.py:145-148 | with the brand premium the lookups fail exactly as above, and the product lies in [0.65·0.82·0.9, 1.15·1.08·1.15·1.1·1.6] |
| Pricing.RawPriceMonotone | car001.py:145-152 | with a non-negative base, multiplier and noise, the untruncated price never increases with age or mileage |
| Pricing.CalculateRealisticPrice | car001.py:87-154 | the price exists exactly when condition, owner, fuel and transmission are table keys (a KeyError otherwise); it is then at least 50,000 and equals the floored, truncated product of the formula |
| Pricing.PriceNonIncreasing | car001.py:87-154 | with every other argument fixed, an older car or one with more mileage is never priced above a younger one or one with less mileage |
| Pricing.BrandEntersOnlyByPremium | car001.py:145-148 | two brands with the same premium get the same table multiplier: the brand enters the formula only through its premium |
| Pricing.UnknownBrandPremium | car001.py:148 | a brand missing from the premium table gets premium 1.0 |
| Pricing.UnknownBrandPricedAtPremiumOne | car001.py:148 | an unknown brand is priced exactly like a brand of premium 1.0 ("Tata") |
| Sampling.RandInt | car001.py:48 | `randint(low, high)` yields a value in [low, high) exactly when the range is non-empty, and numpy's empty-range error otherwise |
| Sampling.RandIntReaches | car001.py:48 | every value of a non-empty range is drawn by some raw draw |
| Sampling.Uniform | car001.py:151 | `uniform(low, high)` lies in [low, high], below high for a non-empty interval |
| Sampling.WeightedIndex | car001.py:55 | the weighted choice returns a valid index of the enumeration |
| Sampling.WeightedIndexInterval | car001.py:55 | index i is chosen exactly for draws between the cumulative weight before i and that cumulative weight plus weight i |
| Sampling.WeightsAreDistributions | car001.py:54-58 | the condition weights (5) and owner weights (4) are non-negative and sum to 1, so numpy accepts them |
| Sampling.GoodConditionBand | car001.py:54-55 | "Good" is drawn exactly for unit draws in [0.3, 0.7) |
| Sampling.FirstOwnerBand | car001.py:57-58 | "First" is drawn exactly for unit draws below 0.4 |
| Generator.DrawRecord | car001.py:47-83 | one record draw fails only with numpy's empty-range error; a drawn record takes brand, model, car type, engine, power and seats from index i of the brand's lists, has a year in [max(1990, cy-20), cy] and a mileage in the policy's range, takes its condition and owner type from the weighted draws of its condition and owner draws, its other categorical values from the enumerations, and is priced by the formula at no less than 50,000 |
| Generator.RecordSkew | car001.py:53-58 | a generated record is in "Good" condition exactly when its condition draw is in [0.3, 0.7), and has a first owner exactly when its owner draw is below 0.4 |
| Generator.Slots | car001.py:35-47 | the loops visit 50 times the number of catalog models, each a valid (brand, model) pair |
| Generator.FiftyRecordsPerModel | car001.py:35-47 | every catalog model is visited exactly 50 times, and nothing else is visited |
| Generator.CollectSound | car001.py:69 | appending until the first failing draw succeeds exactly when every draw succeeds, and then keeps the records in draw order; a failure is one of the draws' failures |
| Generator.Corpus | car001.py:28-85 | a successful generation has 50 records per catalog model |
| Generator.CorpusRecordsFit | car001.py:28-85 | generation fails only with numpy's empty-range error, and record k of a successful generation fits slot k of the visiting order |
| Generator.DrawModelRecords | car001.py:47-83 | the innermost loop appends the 50 records of one model, or stops with the whole generation's failure |
| Generator.DrawBrandRecords | car001.py:36-83 | the loop over one brand's models appends its records and leaves the remaining brands to visit, or stops with the generation's failure |
| Generator.CreateSyntheticTrainingData | car001.py:28-85 | the nested loops produce exactly the corpus `Corpus` describes |
| Generator.MileageRangeNonEmpty | car001.py:51 | for ages 0 to 20 the mileage range is non-empty exactly when the car is at least a year old or the new-car band applies |
| Generator.DrawFailsOnlyOnNewCar | car001.py:48-51 | a record draw fails exactly when the code as written draws the current year, and then with `randint(1000, 0)` |
| Generator.BrandNewCarDraw | car001.py:48-51 | a year draw landing on the current year breaks the code as written, while the new-car band yields a record |
| Generator.AsWrittenCorpus | car001.py:48-51 | the code as written produces its corpus exactly when no year draw lands on the current year, and otherwise fails with `randint(1000, 0)` |
| Generator.NewCarBandNeverFails | car001.py:51 | with the new-car band, generation always succeeds for a current year of 1990 or later |
| Rules.ApplyBusinessRules | car001.py:261-292 | a non-negative estimate moves by at most -17.2% and +8.15% (the mirror bound holds for a negative one) |
| Rules.AdjustmentBandIsTight | car001.py:268-290 | both ends of the band are reached: an old, high-mileage ordinary car gets 0.828, a new low-mileage one gets 1.0815 |
| Rules.RulesNonIncreasingInMileage | car001.py:274-278 | the adjusted price never rises with mileage |
| Rules.RulesNonIncreasingInAge | car001.py:267-271 | for a non-luxury brand the adjusted price never rises with age |
| Rules.LuxuryFifthYearRise | car001.py:285-290 | for a luxury brand a five-year-old car is adjusted above a four-year-old one |
| Rules.LuxuryRuleRelative | car001.py:280-290 | a luxury car is adjusted to 0.95 of an ordinary brand's figure under five years and to 1.02 of it from five years on |
| Rules.Confidence | car001.py:356-374 | the confidence lies in [70, 95] |
| Rules.ConfidenceClampNeverBinds | car001.py:356-374 | the unclamped confidence already lies in [80, 93], so the clamp never changes it |
| Rules.ConfidenceOrdering | car001.py:360-372 | confidence never rises with age or mileage, and a popular brand is exactly five points above any other |
| Predictor.ColumnsPartitionFeatures | car001.py:164-177 | every column is a feature, and categorical exactly when not numerical |
| Predictor.FeatureVector | car001.py:243-247 | the encoded listing has one value per feature |
| Predictor.EncodeLabel | car001.py:230-236 | an unseen label encodes to 0; a seen label encodes to one of the encoder's codes |
| Predictor.UnseenLabelsIndistinguishable | car001.py:230-236 | an unseen label encodes to 0, so two listings that differ only in unseen labels get the same feature vector |
| Predictor.EncodeRequest | car001.py:227-247 | the column-by-column encoding of a listing yields exactly the feature vector: encoder codes (0 when unseen) and standardised numbers, in feature order |
| Predictor.Estimate | car001.py:250-254 | the ensemble estimate lies between the two regressors' predictions, at equal distance from both |
| Predictor.Prediction | car001.py:249-259 | a prediction is never below 50,000 |
| Predictor.PredictionBand | car001.py:249-259 | the ensemble estimate lies between the forest and boosting predictions, and for a non-negative estimate the price lies between the floored, truncated estimate scaled by 0.828 and by 1.0815 |
| Predictor.TrainingData | car001.py:161 | the training frame holds 50 records per catalog model |
| Predictor.FitEncoder | car001.py:173-174 | a fitted label encoder knows exactly the labels of its column |
| Predictor.Encoders | car001.py:171-174 | there is one encoder per categorical column and none for the other columns |
| Predictor.Zip | car001.py:201 | `zip` pairs names and values position by position, up to the shorter list |
| Predictor.DictKeys | car001.py:201 | `dict` of a list of pairs has exactly the pairs' keys |
| Predictor.DictValues | car001.py:201 | with distinct keys, `dict` maps each key to its own value |
| Predictor.FeatureImportancePairs | car001.py:201 | `feature_importance` has exactly the first min(12, n) features as keys, each mapped to its own importance |
| Predictor.Fit | car001.py:156-204 | training fits one encoder per categorical column |
| Predictor.TrainingLabelsAreSeen | car001.py:172-174 | every label of the training frame is known to its column's encoder, so training rows never take the unseen-label fallback |
| Predictor.EncodeColumns | car001.py:171-174 | encoding the categorical columns one by one yields the fitted encoders and, per column, each record's code |
| Predictor.ScaleColumns | car001.py:177-178 | scaling adds each numerical column, standardised record by record, and keeps the encoded columns |
| Predictor.PrepareFeatures | car001.py:163-178 | feature preparation yields the fitted encoders, the scaler fitted on the raw numbers, and each record's feature vector |
| Predictor.CarPricePredictor.constructor | car001.py:22-26 | a new predictor holds no model, no fitted scaler, no encoders and no importances |
| Predictor.CarPricePredictor.TrainModel | car001.py:156-216 | training stores the encoders, scaler, ensemble and feature importances fitted on the generated corpus |
| Predictor.CarPricePredictor.PredictPrice | car001.py:218-259 | an untrained predictor is trained first and a trained one is left unchanged; the price is the rule-adjusted, truncated, floored ensemble estimate of the stored model, at least 50,000 |
| Predictor.CarPricePredictor.Appraise | car001.py:223-259 | with a stored model, the listing is priced by that model's prediction |

## Left out

- Streamlit, Plotly and pandas presentation, including the training messages and `show_price_breakdown`'s rendering: these are UI with no pricing logic.
- scikit-learn internals: forest and boosting fitting, `feature_importances_`, StandardScaler statistics and `LabelEncoder`'s code assignment. They are opaque functions of the data in a `Learner`.
- The `r2_score` and `mean_absolute_error` evaluation at car001.py:206-214: it only feeds a status message.
- `np.random.seed(42)` and numpy's bit stream: draws are parameters. `RandInt` picks `low + u mod (high - low)` from a raw draw rather than numpy's exact algorithm.
- `datetime.now()`: the current year is a parameter.
- IEEE floating-point rounding: prices are exact reals.
- `CAR_DATABASE`, `get_enhanced_live_prices` and the enumerations `CAR_CONDITIONS`, `OWNER_TYPES`, `FUEL_TYPES`, `TRANSMISSIONS` are not part of this model:
  - the catalog is a parameter whose brand entries carry the models' mid base prices;
  - the enumerations are taken to be the key lists of the multiplier tables, in table order.
- Predictor.CarPricePredictor.TrainModel: trains on the generator with the new-car mileage band (see Findings), because the code as written fails whenever a year draw lands on the current year.
- Predictor.CarPricePredictor.TrainModel: requires a current year of 1990 or later. Before that the year range `randint(1990, cy + 1)` is empty, so the source raises. `Generator.DrawRecord` models that error.
- Predictor.CarPricePredictor.PredictPrice: the branch for a categorical column without an encoder (car001.py:231) and the loop that adds missing feature columns (car001.py:243-245) are not modelled. Once a model is trained, every categorical column has an encoder and every feature column is present.
- A listing missing one of the twelve input keys (a KeyError in the source) is not modelled: `CarInput` always has every column.
- `self.scaler = StandardScaler()` before training is modelled as no fitted scaler, since the source only uses the scaler after training.

## Findings

| source | as written | input that shows it | evidently intended | confidence | as-written member | corrected member |
|---|---|---|---|---|---|---|
| car001.py:51 | `randint(1000, min(300000, 15000 * age))` is `randint(1000, 0)` for a car of age 0, which numpy rejects with a ValueError, so generation and training stop | a year draw equal to the current year, which line 48's range `[max(1990, cy-20), cy+1)` allows | a non-empty mileage band for new cars, so every draw yields a record (the model chooses [10, 3000)) | not executed; follows from the ranges on lines 48 and 51 | Generator.AsWrittenCorpus | Generator.NewCarBandNeverFails |
