# Diabetes risk prediction: the `predict` preprocessing pipeline

This project models the `predict` handler of a diabetes-risk service. The
handler receives eight clinical attributes. It first checks that the classifier,
the scaler and the training-column list were loaded. It then builds a one-row
pandas frame, rewrites gender `Other` to `Male`, and one-hot encodes `gender`
and `smoking_history` with `drop_first=True`. Next it reindexes the row to the
frozen training columns, filling missing columns with 0. Finally it scales the
row, asks the classifier for the two class probabilities, and returns them in a
labelled dictionary. A processing failure returns an error dictionary instead.

The model is functional. It has these modules:

- `Frame`: a one-row frame as `seq<(string, Cell)>`, plus label lookup and
  `reindex(columns=..., fill_value=0)`.
- `Record`: the eight-field request, and the frame built from it.
- `Encoding`: the gender rewrite and pandas `get_dummies` with observed-level
  semantics. The levels of a column are the distinct values in the frame. A
  one-row frame therefore has exactly one level per categorical column.
- `Conventions`: three encoders, each followed by alignment.
  - `AsWritten` is the live code.
  - `SplitEncoding` is the commented-out Flask handler. It applies
    `drop_first` to gender only and keeps every smoking level.
  - `KeepAllLevels` is the corrected encoder described under Findings.
- `Pipeline`: the asset guard, the scaler and classifier calls, and the
  returned dictionary.

The central result is `Conventions.AsWrittenAlignedRow` together with
`Conventions.LiveIgnoresCategoricals`. `drop_first=True` removes the only
observed level, so the live encoder produces no indicator column at all. As a
result, every schema column other than the six numeric fields is 0, and the
answer does not depend on gender or smoking history
(`Pipeline.PredictIgnoresCategoricals`).

The scaler and classifier are opaque. Each is a feature count plus a function
field. A width mismatch raises, and `predict` turns that into its error
dictionary. The comments of the commented-out Flask handler (src/app.py:256-265)
expect the training columns to hold `gender_Male`, `gender_Other` and the
smoking indicators, with `smoking_history_never` set to 1 for a non-smoker. The
live code does not produce those columns on a one-row frame, and the model
follows the code.

## Model

| member | source | states |
|---|---|---|
| Record.ToFrame | src/app.py:25-30 | the frame's labels are the eight field names in the dict's insertion order (`gender`, `age`, `hypertension`, `heart_disease`, `smoking_history`, `bmi`, `HbA1c_level`, `blood_glucose_level`) |
| Encoding.ReplaceOther | src/app.py:31 | only a gender of `Other` changes, and it becomes `Male`; other gender values and all other columns are untouched; afterwards no gender cell is `Other` |
| Encoding.ReplaceOtherIdempotent | src/app.py:31 | applying the rewrite twice gives the same result as applying it once |
| Conventions.ReplaceOtherOnRecord | src/app.py:31 | on a request's frame, the rewrite is the frame of the request with its gender mapped `Other` to `Male` |
| Encoding.UntouchedIsFilter | src/app.py:32 | `get_dummies` keeps exactly the frame's columns that are not being encoded |
| Encoding.IndicatorColumns | src/app.py:32 | one column `<c>_<level>` per level, valued 1 for the observed level and 0 otherwise |
| Encoding.Indicators | src/app.py:32 | with `drop_first` a one-row frame gets no indicator column; without it, each encoded column adds exactly `<c>_<value>` = 1, in the order of `columns` |
| Encoding.GetDummies | src/app.py:32 | with `drop_first` the result is just the untouched columns; without it the untouched columns are followed by `<c>_<value>` = 1 for each encoded column `c`, in the order of `columns` |
| Conventions.AsWrittenRow | src/app.py:30-32 | the live encoding is exactly the six numeric columns, in input order, with unchanged values |
| Conventions.SplitRow | src/app.py:251-261 | the split encoding is the six numeric columns plus `smoking_history_<value>` = 1; gender contributes no column |
| Conventions.KeepAllRow | src/app.py:31-32 | the corrected encoder (the intended half of the src/app.py:32 finding): after the gender rewrite, keeping every level of both columns adds `gender_<mapped value>` = 1 and `smoking_history_<value>` = 1 after the numeric columns |
| Conventions.Encode | src/app.py:30-32 | every convention's encoded row has distinct labels and only numeric cells, so it can be reindexed and scaled |
| Frame.Reindex | src/app.py:33 | the aligned labels equal the schema, in order, so the width equals the schema length; a column present in the row keeps its value; a missing one is 0; columns outside the schema are dropped |
| Frame.ReindexNumeric | src/app.py:33-34 | aligning a numeric row with fill value 0 yields a numeric row |
| Conventions.Align | src/app.py:33 | for every request, the aligned row has exactly the training columns and only numeric cells |
| Conventions.AlignedCell | src/app.py:30-33 | each aligned cell equals a reference computed from the request alone: the numeric field, 1 for an indicator the convention emits, else 0 |
| Conventions.AsWrittenAlignedRow | src/app.py:30-33 | in the live pipeline, every schema column other than the six numeric fields is 0, and each numeric column carries its field |
| Conventions.LiveIgnoresCategoricals | src/app.py:30-33 | two requests that agree on the numeric fields give identical live aligned rows, whatever their gender or smoking history |
| Conventions.OtherToMaleIrrelevant | src/app.py:31-32 | encoding the frame without the `Other` to `Male` rewrite gives the same live row |
| Conventions.ConventionsDiverge | src/app.py:257-266 | for a schema containing `smoking_history_<value>`, the live row has 0 there and the split row has 1, so the two rows differ |
| Conventions.CorrectedSetsIndicator | src/app.py:259-266 | with every level kept, a schema indicator `<c>_<v>` is 1 exactly when `v` is the request's (rewritten) value, and 0 otherwise |
| Conventions.DebugRecordAsWritten | src/debug.py:30-45 | the diagnostic Female/never request encodes to the six numeric columns only, with no `gender_*` or `smoking_history_*` column |
| Conventions.DebugRecordSplit | src/app.py:257-261 | under the split convention, the same request gains `smoking_history_never` = 1 |
| Conventions.DebugRecordKeepAll | src/debug.py:30-35 | under the corrected encoder (the intended half of the src/app.py:32 finding), the diagnostic request gains `gender_Female` = 1 and `smoking_history_never` = 1 |
| Pipeline.AlignedFeatures | src/app.py:33-35 | the numbers handed to the scaler are the reference feature vector of the request |
| Pipeline.Run | src/app.py:34-38 | the scaler raises exactly when its feature count differs from the schema length, whatever the request; otherwise success needs the scaled width and the model's feature count to match the schema; on success the result is the classifier's output on the scaled reference features |
| Pipeline.ErrorDict | src/app.py:21 | the error dictionary has exactly the keys `Error` then `Message`, mapping `Error` to 1.0 and `Message` to the given text |
| Pipeline.ScoresDict | src/app.py:41-45 | the answer has exactly the keys "Prediction: No Diabetes" then "Prediction: Diabetes", holding class 0 and class 1, and has no `Error` key |
| Pipeline.Predict | src/app.py:19-48 | missing assets give exactly `{"Error": 1.0, "Message": "Model assets not loaded."}` whatever the request; a processing failure gives exactly `Error` and `Message` keys, the message starting "Prediction Error: "; otherwise the two labelled probabilities are returned; an `Error` key appears exactly when assets are missing or processing fails |
| Pipeline.PredictIgnoresCategoricals | src/app.py:19-48 | the live handler returns the same dictionary for any two requests that agree on the numeric fields |

## Left out

- Gradio interface construction and launch (src/app.py:51-89): user-interface plumbing.
- Loading the three assets with `joblib` (src/app.py:8-15): file I/O. The loaded assets are modelled only as `Option` values, and a failed load leaves all three `None`.
- Scaler and classifier internals (`StandardScaler.transform`, XGBoost `predict_proba`): foreign libraries with floating-point numerics. Each is an opaque function with a feature count. Whether the two probabilities sum to 1 depends on the classifier, not on this code, so it is not stated.
- Feature-name validation inside the scaler and the classifier: foreign-library behaviour. Only the feature-count checks are modelled.
- Pipeline.Predict: the text after "Prediction Error: " is the library's exception text, which comes from scikit-learn/XGBoost and is not part of this program. The model uses a fixed description for each fault kind instead.
- Unset widgets (`None`, which pandas turns into NaN): the fields are typed, with strings for the categorical fields and reals for the rest. `hypertension` and `heart_disease` are reals, not Python ints.
- pandas dtypes: boolean dummy columns are treated as 1.0 and 0.0.
- Frames with more than one row: `predict` always builds exactly one row, so the encoder's levels are those of one row.
- Duplicate labels: pandas refuses to reindex from a frame with duplicate labels. `Frame.Reindex` requires distinct labels, and `Conventions.Encode` proves that every encoder meets this requirement.
- The Flask handler's request parsing, `jsonify`, HTTP status codes, `model.predict` call and its `{'prediction', 'prediction_probability_diabetes'}` output (src/app.py:207-294): transport plumbing. Only its encoding step is modelled, as `SplitEncoding`.
- The older commented-out Gradio handler (src/app.py:121-171): user-interface plumbing. It repeats the live preprocessing, but it has no asset guard, formats its output from `model.predict`, and returns the bare exception text on failure.
- src/debug.py and src/check_artifacts.py: print-driven diagnostic scripts. Only src/debug.py repeats the live preprocessing (src/debug.py:37-48); its request is modelled as `Conventions.DebugRecord`. src/check_artifacts.py only loads the assets and compares their lengths (src/check_artifacts.py:21-31), which corresponds to the width checks in `Pipeline.Run`.
- Repeated calls with the same input and assets return the same result: every member is a pure function, so this holds by construction and needs no lemma.

## Findings

| source | as written | input that shows it | evidently intended | confidence | as-written member | corrected member |
|---|---|---|---|---|---|---|
| src/app.py:32 | `get_dummies(..., drop_first=True)` on the one-row frame removes the only observed level of each categorical column, so no indicator column reaches the schema and every categorical schema column is filled with 0 | two requests with equal numeric fields, one with `smoking_history` "never" and one with "current", give identical aligned rows and identical predictions | each categorical value sets its training-time indicator column to 1; the baseline level comes out as all zeros because that column is absent from the schema | high; not executed | Conventions.LiveIgnoresCategoricals | Conventions.CorrectedSetsIndicator |

The corrected encoder is `Conventions.KeepAllRow`, selected as
`KeepAllLevels`. It keeps every level and lets the reindex drop the baseline
column. `Pipeline.Predict` takes the convention as a parameter, so the same
guard, scaling and output stages run on the corrected encoding. Which gender
spelling the deployed schema expects (`gender_Male` after the rewrite, or
`gender_Other` without it) depends on the schema artifact and is not
determined here.
