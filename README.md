# Jewelry price prediction: preprocessing model

The app collects eight fields of a jewelry item (category, main metal,
target gender, main colour, main gem, brand id, year, month), turns them
into the ordered feature row that the trained LightGBM regressor was fitted
on, and shows the predicted price. This project models that turning step,
`preprocess_input`, and the guard that stops prediction when it fails.

- `wrappers.dfy`: `Option` and `Result`.
- `dataframe.dfy` (module `DataFrame`): the one-row pandas frame as a map
  from column name to `Cell` (`Str` or `Num`), plus the pandas operations
  the app relies on: selecting columns (`df[cols]`), assigning them and
  `pd.get_dummies`; and a helper, `ToRow`, that reads the aligned output
  back by column name so that `AlignIdempotent` can align it again.
- `streamlit_app.dfy` (module `StreamlitApp`): the constants, the
  submission and the loaded objects, the `scaler_features` filter, the
  specification functions of the steps (`Factorized` for factorization,
  `Scale` for scaling, `DataFrame.GetDummies` for one-hot expansion,
  `ZeroFilled` and `Align` for schema alignment, all composed in
  `Preprocess`), the methods that carry the source's
  loops (`FactorizeColumns`, `ZeroFill`, `PreprocessInput`, `PredictPrice`),
  and the lemmas that follow one field from the form to the model.

The four loaded objects are parameters (`Artifacts`). The scaler is its
list of fitted names plus an opaque `transform` that may fail. The regressor
is an opaque function of the aligned table. Preprocessing ends in one of
three ways, and each is modelled:

- success: the aligned table;
- `ScaleError`: a `ValueError` while scaling, caught, `None` returned, no prediction;
- `KeyError`: a scaler feature that is not a column of the frame. The lookup
  `input_df[scaler_features]` raises this, it is not a `ValueError`, nothing
  catches it, and it escapes `predict_price` (`Raised`).

## Model

| member | source | states |
|---|---|---|
| StreamlitApp.ScalerFeatures | streamlit_app.py:13 | no kept name is `Price_USD`; a name is kept exactly when it is a fitted name other than `Price_USD` (both directions) |
| StreamlitApp.ScalerFeaturesAppend | streamlit_app.py:13 | filtering distributes over concatenation, so the kept names keep their relative order |
| StreamlitApp.ScalerFeaturesMultiset | streamlit_app.py:13 | every other name keeps its multiplicity and every `Price_USD` entry is removed |
| StreamlitApp.ScalerFeaturesWithoutPrice | streamlit_app.py:13 | a fitted-name list without `Price_USD` is used unchanged |
| StreamlitApp.InitialRow | streamlit_app.py:35-36 | the frame has exactly the eight input columns; each categorical column holds its form field as a string, and `Brand_ID`, `Year` and `Month` hold their fields as numbers |
| StreamlitApp.Factorized | streamlit_app.py:39-41 | same columns; a mapped categorical value becomes exactly its code; a value absent from its table becomes -1; a column with no table, and every non-categorical column (`Brand_ID`, `Year`, `Month`), is unchanged |
| StreamlitApp.Encode | streamlit_app.py:41 | a cell whose value is in the table becomes exactly its code; any other cell becomes -1 |
| StreamlitApp.FactorizeColumns | streamlit_app.py:39-41 | the in-place loop over the five categorical columns yields the factorized frame |
| DataFrame.Select | streamlit_app.py:48 | the selected cells are those of the named columns, in the order named |
| DataFrame.Assign | streamlit_app.py:48 | assigning columns adds no column beyond those named, leaves every other column unchanged and gives each named column its new number |
| StreamlitApp.Scale | streamlit_app.py:47-51 | `KeyError` exactly when a scaler feature is not a column; `ScaleError` exactly when the transform fails or returns the wrong number of values; on success the same columns, non-features unchanged, each feature holding the transform's number |
| DataFrame.GetDummies | streamlit_app.py:54 | numeric columns pass through; a string column `c` holding `v` yields the indicator `c_v` = 1; no string cell remains; no other column appears |
| DataFrame.DummyName | streamlit_app.py:54 | the indicator name of value `v` in column `c` is `c`, then `_`, then `v` |
| StreamlitApp.DummyNameFresh | streamlit_app.py:36 | no indicator name built from one of the eight input columns is itself an input column |
| StreamlitApp.ZeroFilled | streamlit_app.py:57-59 | the columns become the frame's plus the schema's; existing cells are never overwritten; every added column is 0 |
| StreamlitApp.ZeroFill | streamlit_app.py:57-59 | the loop that adds each missing schema column as 0 yields the zero-filled frame |
| DataFrame.Project | streamlit_app.py:62 | the projected columns are exactly the given names in the given order, each with the frame's cell |
| StreamlitApp.Align | streamlit_app.py:56-62 | the output columns are exactly `one_hot_columns` in order; a schema column present before alignment keeps its cell; an absent one is 0 |
| DataFrame.ToRowAt | streamlit_app.py:62 | the projected table, read back by column name, gives every one of its cells |
| DataFrame.ToRow | streamlit_app.py:57-58 | not a source operation: the aligned table read back by column name, as the zero-fill loop and the projection read a frame; its columns are the table's names |
| StreamlitApp.AlignIdempotent | streamlit_app.py:57-62 | aligning an aligned row a second time returns the same row |
| StreamlitApp.Preprocess | streamlit_app.py:31-64 | on success the columns are exactly `one_hot_columns` and every cell is numeric; the uncaught `KeyError` happens exactly when a scaler feature is not one of the eight input columns; the `None` outcome (`ScaleError`) happens exactly when every scaler feature is present and the transform of the factorized columns fails or returns the wrong number of values |
| StreamlitApp.PreprocessInput | streamlit_app.py:31-64 | the imperative procedure computes the composed specification of the four steps; on success its columns are `one_hot_columns` |
| StreamlitApp.PredictPrice | streamlit_app.py:67-76 | no prediction exactly when scaling failed; an exception exactly on a missing scaler column; otherwise the model's estimate of the aligned row |
| StreamlitApp.ScalerFittedWithPriceAlwaysFails | streamlit_app.py:12-13 | if the scaler was fitted with `Price_USD` and rejects frames whose names differ from its fitted ones, preprocessing fails for every submission |
| StreamlitApp.EncodedCategoryReachesModel | streamlit_app.py:39-62 | a mapped categorical field that is not rescaled reaches the model as its code, or -1 for an unseen value |
| StreamlitApp.NumericInputReachesModel | streamlit_app.py:35-62 | `Brand_ID`, `Year` and `Month`, when not rescaled, reach the model as entered |
| StreamlitApp.ScaledFeatureReachesModel | streamlit_app.py:47-62 | a rescaled schema column reaches the model as the scaler's number for it |
| StreamlitApp.UnmappedCategoryIsOneHot | streamlit_app.py:39-62 | a categorical field without a table gives indicator 1 for its value, and its own column, if the schema names it, is 0 |

## Left out

- The Streamlit page: title, widgets, button and the success and error messages (lines 16-28, 50, 72, 79-83). The widgets' bounds apply to the inputs only, so `Inputs` takes any integers.
- Loading the model, mappings, schema and scaler with `joblib` (lines 7-10): they are the `Artifacts` parameter.
- `model.predict` (line 76): an opaque function of the aligned table.
- The min-max arithmetic inside `scaler.transform` (line 48): an opaque `transform` that may fail, with the selected names and cells as input.
- The `astype(float)` cast (line 44): numbers are `real` from the start, so the cast has no effect in the model.
- Floating point: codes, inputs and indicators are exact reals.
- Pandas dtypes: `Series.map` with `fillna(-1)` yields int or float codes, and `get_dummies` yields booleans. All are `Num`.
- The formatting of the price (line 79).
- The order of columns inside the frame before the final projection. The frame is keyed by name. The projection at line 62 fixes the only order that reaches the model.
- DataFrame.Assign: for a scaler feature named twice, the model keeps the later value. Pandas' behaviour with duplicate column keys is not modelled.
- DataFrame.GetDummies: if an indicator name were equal to a numeric column, pandas would keep both columns; the model keeps the numeric one. `DummyNameFresh` shows this cannot happen with the app's eight columns.
- Which missing column the `KeyError` names, and the text of any error.
- Exceptions other than the ones named above: any exception other than `ValueError` raised inside `scaler.transform`, and any exception from `model.predict`, would escape `predict_price` as the `KeyError` does. The model gives the transform only the `ValueError` outcome (`None`) and the regressor none.
- AlignIdempotent: `one_hot_columns` is assumed to hold distinct names for `AlignIdempotent`. With a repeated name, pandas would return every match for each key on a second pass, and the source would not be idempotent there. `ToRow` merges repeated names instead.
- ScalerFittedWithPriceAlwaysFails: the scikit-learn check of feature names is stated as the hypothesis `ChecksFeatureNames`. It is not part of the opaque `transform`.
