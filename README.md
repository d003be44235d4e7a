# Crop quality grading and product-record maintenance, in Dafny

This project models the algorithmic core of a farm-to-retail produce tracking
application (`crop-dapp`):

- **`grade_crop`** (`crop-dapp/ml_quality_model.py`), the produce-grading
  function. It looks up weights for fertilizer, soil, irrigation and quality
  in fixed tables (case-insensitively, with a default for unknown values). It
  adds an organic weight, a quantity term clamped to [0, 0.12] and a bonus
  for organic produce grown with compost, vermicompost or biofertilizer. It
  clamps the sum to [0, 1], maps it through the threshold ladder
  0.85 / 0.70 / 0.55 / 0.40 to a letter grade with its certification label,
  and rounds the score to two decimals. This is module `Grading`
  (`grading.dfy`). It is written as pure functions over exact `real`
  hundredths.
- **The repair script** (`crop-dapp/fix_products.py`). `get_default` is a
  fixed table lookup that fails on unknown keys. The loop fills each missing
  attribute of each product with its default, in place, and keeps a `changed`
  flag. This is module `Repair` (`fix_products.dfy`). `FixProduct` is the loop
  body and `FixProducts` the loop over an `array` of records.
- **The diagnostic script** (`crop-dapp/debug_products.py`). For each product
  it builds the ordered list of missing attribute names by appending, then
  reports either "missing fields" or "all fields present". This is module
  `Diagnose` (`debug_products.dfy`). It only reads the products.

Both scripts use one "field is missing" test. A string column is missing
when it is `None`, empty or whitespace-only (`not v or not v.strip()`).
The quantity column is missing only when it is `None`. This test, the
product record and the missing list as a filter over the six attributes are
in module `Products` (`products.dfy`). Python's `str.strip` (over the
characters `str.isspace` accepts) and `str.lower` (on ASCII letters) are in
module `Text` (`text.dfy`).

The scripts read `fertilizer`, `organic`, `soil` and `irrigation` from a
product, but the ORM class in `crop-dapp/models.py` declares none of them.
So the record here is a plain datatype: id, name and the six graded
attributes, each of which may be `None`.

Two facts about the code that the lemmas pin down:

- The quantity term is `min(0.12, max(0, quantity/500))`. It reaches its
  cap of 0.12 at quantity 60 and stays there (`Grading.QuantityTerm`).
- The lot ("compost", "organic", "clay", "sprinkler", 200, "high") sums to
  0.18 + 0.25 + 0.10 + 0.12 + 0.14 + 0.12 + 0.08 = 0.99
  (`Grading.CompostBonusExample`).

## Model

| member | source | states |
|---|---|---|
| `Grading.GradeCrop` | crop-dapp/ml_quality_model.py:3-64 | The returned score is in [0, 1], is a whole number of hundredths and is within 0.005 of the clamped score. The grade is the ladder applied to the clamped, unrounded score. The certification is the label that belongs to that grade. |
| `Grading.FertilizerWeight` | crop-dapp/ml_quality_model.py:37 | `fertilizer_weights.get(fertilizer.lower(), 0.05)`. It has no contract of its own: `Grading.UnknownValuesGetDefaults`, `Grading.WeightBounds` and `Grading.CaseInsensitive` state its default, its range and its case-insensitivity. |
| `Grading.SoilWeight` | crop-dapp/ml_quality_model.py:39 | `soil_weights.get(soil.lower(), 0.08)`. It has no contract of its own: `Grading.UnknownValuesGetDefaults`, `Grading.WeightBounds` and `Grading.CaseInsensitive` state its properties. |
| `Grading.IrrigationWeight` | crop-dapp/ml_quality_model.py:40 | `irrigation_weights.get(irrigation.lower(), 0.03)`. It has no contract of its own: `Grading.UnknownValuesGetDefaults`, `Grading.WeightBounds` and `Grading.CaseInsensitive` state its properties. |
| `Grading.QualityWeight` | crop-dapp/ml_quality_model.py:41 | `quality_weights.get(quality.lower(), 0.03)`. It has no contract of its own: `Grading.UnknownValuesGetDefaults`, `Grading.WeightBounds` and `Grading.CaseInsensitive` state its properties. |
| `Grading.RawScore` | crop-dapp/ml_quality_model.py:36-43 | The running sum before the clamp. It has no contract of its own: `Grading.RawScoreBounds` states its range [0.29, 1.18], and `Grading.QuantityMonotone` states that the clamped score never falls as quantity grows. |
| `Grading.OrganicWeight` | crop-dapp/ml_quality_model.py:13 | The organic weight is 0.25 exactly when the lower-cased value is "organic", and 0.10 exactly when it is not. |
| `Grading.UnknownValuesGetDefaults` | crop-dapp/ml_quality_model.py:37-41 | A fertilizer, soil, irrigation or quality value whose lower-cased form is not in its table weighs 0.05, 0.08, 0.03 or 0.03. |
| `Grading.WeightBounds` | crop-dapp/ml_quality_model.py:5-41 | Each lookup, default included, stays between its table's smallest and largest weight: fertilizer [0.05, 0.22], soil [0.08, 0.18], irrigation [0.03, 0.15], quality [0.03, 0.18]. |
| `Grading.QuantityTerm` | crop-dapp/ml_quality_model.py:42 | The quantity term lies in [0, 0.12]. It is 0 for quantity ≤ 0 and quantity/500 on [0, 60]. It is exactly 0.12 for quantity ≥ 60. |
| `Grading.InteractionBonus` | crop-dapp/ml_quality_model.py:34 | The bonus is 0.08 exactly when the product is organic and the lower-cased fertilizer is compost, vermicompost or biofertilizer. Otherwise it is 0. |
| `Grading.ClampedScore` | crop-dapp/ml_quality_model.py:45-46 | The clamped score lies in [0, 1]. |
| `Grading.RawScoreBounds` | crop-dapp/ml_quality_model.py:36-46 | Before clamping, the sum lies in [0.29, 1.18]. So the clamp is just `min(1, sum)`: the lower bound never acts. |
| `Grading.UpperClampReachable` | crop-dapp/ml_quality_model.py:36-46 | The upper clamp does act: biofertilizer, organic, loamy, drip, quantity 60, premium sums to 1.18 and clamps to 1. |
| `Grading.GradeOf` | crop-dapp/ml_quality_model.py:49-63 | The ladder as five disjoint bands covering every score: A+ iff ≥ 0.85, A iff in [0.70, 0.85), B iff in [0.55, 0.70), C iff in [0.40, 0.55), D iff < 0.40. |
| `Grading.GradeMonotone` | crop-dapp/ml_quality_model.py:49-63 | A higher score never gets a lower grade. |
| `Grading.GradeLabelsDistinct` | crop-dapp/ml_quality_model.py:49-63 | Grades, grade names and certification labels are in one-to-one correspondence: A+ Organic Premium Plus, A Organic Premium, B Certified Good, C Standard, D Needs Improvement. |
| `Grading.Round2` | crop-dapp/ml_quality_model.py:64 | The rounded score is a whole number of hundredths within 0.005 of its input, and it stays in [0, 1] when its input does. |
| `Grading.CaseInsensitive` | crop-dapp/ml_quality_model.py:13-41 | Lower-casing every string argument first leaves the whole result unchanged. |
| `Grading.QuantityMonotone` | crop-dapp/ml_quality_model.py:42-63 | A larger quantity never lowers the clamped score or the grade. |
| `Grading.RoundedScoreCanCrossThreshold` | crop-dapp/ml_quality_model.py:46-64 | The grade uses the unrounded score, so the two can disagree. Urea, organic, loamy, drip, quantity 18, premium sums to 0.846. It gets grade A and certification Organic Premium, but the returned score is 0.85, which is an A+ score. |
| `Grading.SumOnLowerThreshold` | crop-dapp/ml_quality_model.py:36-60 | Urea, organic, silt, flood, quantity 0, medium sums to exactly 0.55 and so grades as (0.55, B, Certified Good). Left out says what binary floating point does with this sum. |
| `Grading.SumOnTopThreshold` | crop-dapp/ml_quality_model.py:34-51 | Compost, organic, sandy loam, manual, quantity 40, medium sums to exactly 0.85 and so grades as (0.85, A+, Organic Premium Plus). |
| `Grading.PremiumOrganicExample` | crop-dapp/ml_quality_model.py:3-64 | Urea, organic, loamy, drip, quantity 500, premium grades as (0.93, A+, Organic Premium Plus); the quantity term is at its 0.12 cap. |
| `Grading.PoorConventionalExample` | crop-dapp/ml_quality_model.py:3-64 | DAP, conventional, sandy, manual, quantity 10, low grades as (0.34, D, Needs Improvement). |
| `Grading.CompostBonusExample` | crop-dapp/ml_quality_model.py:3-64 | Compost, organic, clay, sprinkler, quantity 200, high earns the 0.08 interaction bonus and grades as (0.99, A+, Organic Premium Plus). |
| `Text.Strip` | crop-dapp/debug_products.py:11 | `s.strip()`. It has no contract of its own: `Text.StripRemovesEdgeSpace` and `Text.StripEmptyIff` state its properties. |
| `Text.StripRemovesEdgeSpace` | crop-dapp/fix_products.py:20 | `s.strip()` is the slice of `s` left when an all-whitespace prefix and an all-whitespace suffix are removed. When it is not empty it starts and ends with a non-whitespace character, so nothing more could have been removed. |
| `Text.Lower` | crop-dapp/ml_quality_model.py:37-41 | `s.lower()`: same length as `s`, each ASCII capital replaced by its small letter and every other character kept. |
| `Text.LowerIdempotent` | crop-dapp/ml_quality_model.py:13 | Lower-casing an already lower-cased string changes nothing. |
| `Text.StripEmptyIff` | crop-dapp/debug_products.py:11 | `s.strip()` is empty exactly when every character of `s` is whitespace. |
| `Text.BlankIffAllSpace` | crop-dapp/debug_products.py:11-14 | `not s or not s.strip()` holds exactly when `s` is all whitespace, the empty string included. |
| `Products.Absent` | crop-dapp/debug_products.py:11-16 | The shared missing-field test: a string column is missing when it is None or blank, and the quantity column only when it is None. It has no contract of its own: `Products.AbsentTextIff` and `Products.MissingMeans` state what it means. |
| `Products.AbsentTextIff` | crop-dapp/fix_products.py:20 | `not v or not v.strip()` on a string column holds exactly when `v` is None or all whitespace. |
| `Products.MissingFields` | crop-dapp/debug_products.py:10-16 | The list `missing`. It has no contract of its own: `Products.MissingFieldsSpec` states its contents and order, and `Products.MissingFieldsByAppending` states that it equals the appends. |
| `Products.MissingFieldsSpec` | crop-dapp/debug_products.py:10-16 | The missing list holds exactly the missing attributes. They come in the order fertilizer, organic, soil, irrigation, quantity, quality, each at most once. The list is empty iff no attribute is missing. |
| `Products.MissingMeans` | crop-dapp/debug_products.py:11-16 | A string attribute is listed iff it is None or all whitespace. Quantity is listed iff it is None, so 0 counts as present. |
| `Products.MissingFieldsByAppending` | crop-dapp/debug_products.py:10-16 | The filter over the six attributes equals the list built by six conditional appends, in the script's order. |
| `Repair.GetDefault` | crop-dapp/fix_products.py:5-14 | `get_default` succeeds exactly on the six attribute names. Any other key gives a `KeyError` carrying that key. |
| `Repair.DefaultValues` | crop-dapp/fix_products.py:6-13 | The defaults are urea, organic, loamy, drip, 1 and medium. |
| `Repair.DefaultOf` | crop-dapp/fix_products.py:5-14 | The default of attribute f is the table entry under f's name, and `get_default` returns it for that name. It is a count exactly for quantity. |
| `Repair.DefaultsPresent` | crop-dapp/fix_products.py:6-13 | No default value is itself missing. |
| `Repair.Repaired` | crop-dapp/fix_products.py:20-37 | Repair keeps the identity and every present attribute. It replaces every missing attribute with its default. |
| `Repair.RepairedIsComplete` | crop-dapp/fix_products.py:20-37 | After repair no attribute is missing: every string attribute is non-blank and the quantity is not None. |
| `Repair.RepairIdempotent` | crop-dapp/fix_products.py:20-37 | Repairing a repaired product changes nothing. |
| `Repair.RepairChangesIffMissing` | crop-dapp/fix_products.py:19-39 | Repair changes a product exactly when its missing list is non-empty. |
| `Repair.ZeroQuantityKept` | crop-dapp/fix_products.py:32-34 | A quantity of 0 is kept: only None is replaced. |
| `Repair.FixProduct` | crop-dapp/fix_products.py:19-37 | The sequence of conditional fills yields the repaired product. `changed` is true iff some attribute was missing, which is when the diagnostic's list is non-empty. |
| `Repair.FixProducts` | crop-dapp/fix_products.py:17-39 | Every product of the array is replaced by its repair, in place, and none is added or removed. Each product's `changed` flag is true iff that product had a missing attribute. |
| `Diagnose.CheckProduct` | crop-dapp/debug_products.py:10-20 | The appended list is exactly the product's missing list. The verdict is "all fields present" iff that list is empty. |
| `Diagnose.DebugProducts` | crop-dapp/debug_products.py:6-20 | One report per product, in array order, each with the product's missing list and verdict. It has no `modifies` clause, so it cannot change any product. |

## Left out

- `crop-dapp/app.py`: the HTTP routes, sessions, templates and database queries. These are plumbing around the core.
- `crop-dapp/app.py`: wallet-signature recovery. It relies on a foreign cryptographic library.
- `crop-dapp/models.py`: the ORM schema and the password-hashing wrappers. A plain record datatype stands in for `Product`.
- `crop-dapp/fix_inspector_role.py`: one-off database seeding, with no logic beyond a find-or-create.
- The database session, `commit()` and every `print` in the two scripts. `FixProducts` returns the `changed` flags that decide the "Fixed product ID" line. `DebugProducts` returns the reports that decide the printed verdicts.
- Grading.Round2: rounds the exact real value half-to-even. It does not model binary floating point. On floats, sums such as 0.05 + 0.25 can differ from the exact hundredths in the last bits, and Python's `round` acts on the binary value. Only the 0.005 bound and the two-decimal form are promised.
- Grading.GradeCrop: sums in exact reals, not in binary floating point. So a sum whose exact value lands on the 0.40, 0.55 or 0.85 threshold gets that threshold's grade here, but it can get the next lower grade in the program. For example, urea, organic, silt, flood, quantity 0, medium sums to exactly 0.55, and the model grades it B (`Grading.SumOnLowerThreshold`). The double sum of those constants, added in the source's order, is 0.5499999999999999, so the program grades it C while returning the score 0.55. Likewise compost, organic, sandy loam, manual, quantity 40, medium is exactly 0.85: the model gives A+ (`Grading.SumOnTopThreshold`), but the double sum is 0.8499999999999999, which gets an A.
- Grading.GradeCrop: takes quantity as a number already converted with `float(quantity)`. A failed conversion, and `.lower()` on a non-string, are not modelled; the inputs are typed.
- Text.Lower: lower-cases only the ASCII letters A–Z. Python's `str.lower` also maps other characters. One example is the Kelvin sign, which lowers to "k" and so can turn a non-ASCII spelling into the "npk" key.
- The unused `numpy` import.

## Findings

No source defect was established. The returned score and the returned grade can disagree, because the grade is taken from the unrounded sum:

- `Grading.RoundedScoreCanCrossThreshold`: an exact sum of 0.846 is graded A but returned as 0.85, an A+ score.
- In the program's floating-point arithmetic, the two threshold lots under Left out return 0.55 with grade C and 0.85 with grade A. The exact-real model grades them B and A+ (`Grading.SumOnLowerThreshold`, `Grading.SumOnTopThreshold`).

These are kept as properties of the code as written: nothing in the code says which of score and grade the authors meant to be authoritative.
