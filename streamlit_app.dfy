/** The preprocessing of the jewelry price app: one form submission is
    turned into the ordered feature row the trained regressor expects, and
    a prediction is made only when that succeeds. */
module StreamlitApp {
  import opened Wrappers
  import opened DataFrame

  /** The target column that the scaler may have been fitted with. */
  const PriceColumn := "Price_USD"

  /** The five categorical form fields, in the order they are factorized. */
  const CategoricalColumns: seq<string> :=
    ["Category", "Main_Metal", "Target_Gender", "Main_Color", "Main_Gem"]

  /** The three numeric form fields. */
  const NumericInputColumns: seq<string> := ["Brand_ID", "Year", "Month"]

  /** The columns of the frame built from one submission. */
  const InputColumns: seq<string> := CategoricalColumns + NumericInputColumns

  /** One submission of the form. */
  datatype Inputs = Inputs(
    category: string, mainMetal: string, targetGender: string, mainColor: string, mainGem: string,
    brandId: int, year: int, month: int)

  /** Per categorical column, the table from category value to integer code. */
  type Mappings = map<string, map<string, int>>

  /** The fitted min-max scaler: the names it was fitted on, and its
      transform, which is given the selected column names and cells and
      either returns one number per column or fails (a ValueError). */
  datatype Scaler = Scaler(
    featureNamesIn: seq<string>,
    transform: (seq<string>, seq<Cell>) -> Option<seq<real>>)

  /** The four objects loaded at start-up. */
  datatype Artifacts = Artifacts(
    model: Table -> real,
    factorizedMappings: Mappings,
    oneHotColumns: seq<string>,
    scaler: Scaler)

  /** Why preprocessing stopped: a scaler feature absent from the frame
      (a KeyError, which nothing catches), or a ValueError while scaling
      (caught, and reported by returning None). */
  datatype Error = KeyError | ScaleError

  /** What one press of the button ends in. */
  datatype Prediction = Estimated(price: real) | NoPrediction | Raised

  /** `scaler_features`: the scaler's feature names without the price column. */
  function ScalerFeatures(names: seq<string>): (r: seq<string>)
    ensures |r| <= |names|
    ensures forall i | 0 <= i < |r| :: r[i] != PriceColumn
    ensures forall x :: x in r <==> x in names && x != PriceColumn
  {
    if names == [] then []
    else (if names[0] == PriceColumn then [] else [names[0]]) + ScalerFeatures(names[1..])
  }

  /** Filtering distributes over concatenation: together with its effect on
      a single name, this says the kept names stay in their relative order. */
  lemma {:induction false} ScalerFeaturesAppend(a: seq<string>, b: seq<string>)
    ensures ScalerFeatures(a + b) == ScalerFeatures(a) + ScalerFeatures(b)
    decreases |a|
  {
    if a != [] {
      assert (a + b)[1..] == a[1..] + b;
      ScalerFeaturesAppend(a[1..], b);
    } else {
      assert a + b == b;
    }
  }

  /** Every name other than the price column keeps its multiplicity; the
      price column disappears. */
  lemma {:induction false} ScalerFeaturesMultiset(names: seq<string>)
    ensures multiset(ScalerFeatures(names)) == multiset(names)[PriceColumn := 0]
    decreases |names|
  {
    if names != [] {
      ScalerFeaturesMultiset(names[1..]);
      assert names == [names[0]] + names[1..];
    }
  }

  /** A name list without the price column is kept as it is. */
  lemma {:induction false} ScalerFeaturesWithoutPrice(names: seq<string>)
    requires PriceColumn !in names
    ensures ScalerFeatures(names) == names
    decreases |names|
  {
    if names != [] {
      ScalerFeaturesWithoutPrice(names[1..]);
      assert names == [names[0]] + names[1..];
    }
  }

  /** The frame built from one submission; the numeric fields already as floats. */
  function InitialRow(inp: Inputs): (r: Row)
    ensures r.Keys == {"Category", "Main_Metal", "Target_Gender", "Main_Color", "Main_Gem", "Brand_ID", "Year", "Month"}
    ensures r["Category"] == Str(inp.category) && r["Main_Metal"] == Str(inp.mainMetal)
    ensures r["Target_Gender"] == Str(inp.targetGender) && r["Main_Color"] == Str(inp.mainColor)
    ensures r["Main_Gem"] == Str(inp.mainGem)
    ensures r["Brand_ID"] == Num(inp.brandId as real) && r["Year"] == Num(inp.year as real)
    ensures r["Month"] == Num(inp.month as real)
  {
    map[
      "Category" := Str(inp.category), "Main_Metal" := Str(inp.mainMetal),
      "Target_Gender" := Str(inp.targetGender), "Main_Color" := Str(inp.mainColor),
      "Main_Gem" := Str(inp.mainGem), "Brand_ID" := Num(inp.brandId as real),
      "Year" := Num(inp.year as real), "Month" := Num(inp.month as real)]
  }

  /** The value the submission gives to the categorical field `c`. */
  function RawCategory(inp: Inputs, c: string): string
    requires c in CategoricalColumns
  {
    InitialRow(inp)[c].s
  }

  /** `Series.map(table).fillna(-1)` on one cell. */
  function Encode(table: map<string, int>, v: Cell): (r: Cell)
    ensures r.Num?
    ensures v.Str? && v.s in table ==> r.x == table[v.s] as real
    ensures !(v.Str? && v.s in table) ==> r.x == -1.0
  {
    if v.Str? && v.s in table then Num(table[v.s] as real) else Num(-1.0)
  }

  /** The frame after the factorization loop. */
  function Factorized(row: Row, mappings: Mappings): (r: Row)
    ensures r.Keys == row.Keys
    ensures forall c | c in row && (c !in CategoricalColumns || c !in mappings) :: r[c] == row[c]
    ensures forall c | c in row && c in CategoricalColumns && c in mappings && row[c].Str? && row[c].s in mappings[c] ::
      r[c] == Num(mappings[c][row[c].s] as real)
    ensures forall c | c in row && c in CategoricalColumns && c in mappings && !(row[c].Str? && row[c].s in mappings[c]) ::
      r[c] == Num(-1.0)
  {
    map c | c in row :: if c in CategoricalColumns && c in mappings then Encode(mappings[c], row[c]) else row[c]
  }

  /** The guarded scaling step. */
  function Scale(row: Row, features: seq<string>, transform: (seq<string>, seq<Cell>) -> Option<seq<real>>): (r: Result<Row, Error>)
    ensures r == Failure(KeyError) <==> exists c :: c in features && c !in row
    ensures r == Failure(ScaleError) <==>
      && (forall c | c in features :: c in row)
      && var out := transform(features, Select(row, features));
         out.None? || |out.value| != |features|
    ensures r.Success? ==>
      && (forall c | c in features :: c in row)
      && var out := transform(features, Select(row, features));
         && out.Some? && |out.value| == |features|
         && r.value.Keys == row.Keys
         && (forall c | c in row && c !in features :: r.value[c] == row[c])
         && (forall i | 0 <= i < |features| && features[i] !in features[i + 1..] ::
               r.value[features[i]] == Num(out.value[i]))
  {
    if exists c :: c in features && c !in row then Failure(KeyError)
    else
      match transform(features, Select(row, features))
      case None => Failure(ScaleError)
      case Some(vals) => if |vals| != |features| then Failure(ScaleError) else Success(Assign(row, features, vals))
  }

  /** The frame after the zero-fill loop over the schema. */
  function ZeroFilled(row: Row, schema: seq<string>): (r: Row)
    ensures r.Keys == row.Keys + set c | c in schema
    ensures forall c | c in row :: r[c] == row[c]
    ensures forall c | c in r && c !in row :: r[c] == Zero
  {
    map c | c in row.Keys + (set c | c in schema) :: if c in row then row[c] else Zero
  }

  /** Alignment with the trained schema: zero-fill, then project. */
  function Align(row: Row, schema: seq<string>): (t: Table)
    ensures t.columns == schema && |t.cells| == |schema|
    ensures forall i | 0 <= i < |schema| && schema[i] in row :: t.cells[i] == row[schema[i]]
    ensures forall i | 0 <= i < |schema| && schema[i] !in row :: t.cells[i] == Zero
  {
    Project(ZeroFilled(row, schema), schema)
  }

  /** `preprocess_input` as a function of the submission and the loaded objects. */
  function Preprocess(inp: Inputs, art: Artifacts): (r: Result<Table, Error>)
    ensures r.Success? ==> r.value.columns == art.oneHotColumns && |r.value.cells| == |art.oneHotColumns|
    ensures r.Success? ==> forall i | 0 <= i < |r.value.cells| :: r.value.cells[i].Num?
    ensures var features := ScalerFeatures(art.scaler.featureNamesIn);
      r == Failure(KeyError) <==> exists c :: c in features && c !in InputColumns
    ensures var features := ScalerFeatures(art.scaler.featureNamesIn);
      var encoded := Factorized(InitialRow(inp), art.factorizedMappings);
      r == Failure(ScaleError) <==>
        && (forall c | c in features :: c in InputColumns)
        && var out := art.scaler.transform(features, Select(encoded, features));
           out.None? || |out.value| != |features|
  {
    var encoded := Factorized(InitialRow(inp), art.factorizedMappings);
    match Scale(encoded, ScalerFeatures(art.scaler.featureNamesIn), art.scaler.transform)
    case Failure(e) => Failure(e)
    case Success(scaled) => Success(Align(GetDummies(scaled), art.oneHotColumns))
  }

  /** scikit-learn's scaler refuses, with a ValueError, a frame whose column
      names are not the names it was fitted on. */
  ghost predicate ChecksFeatureNames(s: Scaler) {
    forall names, cells :: names != s.featureNamesIn ==> s.transform(names, cells).None?
  }

  /** A scaler that checks feature names and was fitted with the price
      column never accepts the selected columns, which lack it: every
      submission then fails to preprocess, and no price is predicted. */
  lemma ScalerFittedWithPriceAlwaysFails(inp: Inputs, art: Artifacts)
    requires ChecksFeatureNames(art.scaler)
    ensures PriceColumn in art.scaler.featureNamesIn ==> Preprocess(inp, art).Failure?
  {
    var features := ScalerFeatures(art.scaler.featureNamesIn);
    if PriceColumn in art.scaler.featureNamesIn {
      assert PriceColumn !in features;
      assert features != art.scaler.featureNamesIn;
    }
  }

  /** No indicator column name that the one-hot step can produce is one of
      the columns the submission frame starts with. */
  lemma DummyNameFresh(c: string, v: string)
    requires c in InputColumns
    ensures DummyName(c, v) !in InputColumns
  {
    var d := DummyName(c, v);
    assert |d| > |c| && d[0] == c[0] && d[1] == c[1];
    assert |c| > 5 ==> d[5] == c[5];
    assert |c| == 5 ==> d[5] == '_';
  }

  /** The factorization loop: each categorical column that has a mapping
      table is overwritten, in place, by its encoded cell. */
  method FactorizeColumns(frame: Row, mappings: Mappings) returns (out: Row)
    requires forall c | c in CategoricalColumns :: c in frame
    ensures out == Factorized(frame, mappings)
  {
    out := frame;
    for i := 0 to |CategoricalColumns|
      invariant out.Keys == frame.Keys
      invariant forall c | c in frame ::
        out[c] == if c in CategoricalColumns[..i] && c in mappings then Encode(mappings[c], frame[c]) else frame[c]
    {
      var col := CategoricalColumns[i];
      if col in mappings {
        out := out[col := Encode(mappings[col], out[col])];
      }
    }
    assert CategoricalColumns[..|CategoricalColumns|] == CategoricalColumns;
  }

  /** The zero-fill loop: each schema column absent from the frame is added
      with the value 0; columns already there are left alone. */
  method ZeroFill(frame: Row, schema: seq<string>) returns (out: Row)
    ensures out == ZeroFilled(frame, schema)
  {
    out := frame;
    for i := 0 to |schema|
      invariant out.Keys == frame.Keys + set c | c in schema[..i]
      invariant forall c | c in out :: out[c] == if c in frame then frame[c] else Zero
    {
      if schema[i] !in out {
        out := out[schema[i] := Zero];
      }
    }
    assert schema[..|schema|] == schema;
  }

  /** `preprocess_input`: build the frame, factorize the categorical
      columns, scale, expand to indicators, add each missing schema column
      as 0, and project onto the schema. */
  method PreprocessInput(inp: Inputs, art: Artifacts) returns (r: Result<Table, Error>)
    ensures r == Preprocess(inp, art)
    ensures r.Success? ==> r.value.columns == art.oneHotColumns
  {
    var frame := InitialRow(inp);
    frame := FactorizeColumns(frame, art.factorizedMappings);
    var scaled := Scale(frame, ScalerFeatures(art.scaler.featureNamesIn), art.scaler.transform);
    if scaled.Failure? {
      return Failure(scaled.error);
    }
    frame := GetDummies(scaled.value);
    frame := ZeroFill(frame, art.oneHotColumns);
    r := Success(Project(frame, art.oneHotColumns));
  }

  /** `predict_price`: a prediction is made exactly when preprocessing
      succeeds; a scaling failure (None) means no prediction, and a missing
      scaler column escapes as an exception. */
  method PredictPrice(inp: Inputs, art: Artifacts) returns (p: Prediction)
    ensures p == NoPrediction <==> Preprocess(inp, art) == Failure(ScaleError)
    ensures p == Raised <==> Preprocess(inp, art) == Failure(KeyError)
    ensures Preprocess(inp, art).Success? ==> p == Estimated(art.model(Preprocess(inp, art).value))
  {
    var inputData := PreprocessInput(inp, art);
    match inputData
    case Failure(KeyError) => return Raised;
    case Failure(ScaleError) => return NoPrediction;
    case Success(features) => return Estimated(art.model(features));
  }

  /** Aligning an aligned row again changes nothing: every schema column is
      then present, so nothing is added and every cell is kept. */
  lemma AlignIdempotent(row: Row, schema: seq<string>)
    ensures var t := Align(row, schema); Align(ToRow(t), schema) == t
  {
    var t := Align(row, schema);
    assert Coherent(t) by {
      forall i, j | 0 <= i < |schema| && 0 <= j < |schema| && schema[i] == schema[j]
        ensures t.cells[i] == t.cells[j]
      {
      }
    }
    ToRowAt(t);
    var t2 := Align(ToRow(t), schema);
    assert t2.cells == t.cells;
  }

  /** A mapped categorical field that is not rescaled reaches the model as
      its code, or as -1 when its value is not in the table. */
  lemma EncodedCategoryReachesModel(inp: Inputs, art: Artifacts, i: nat)
    requires i < |art.oneHotColumns|
    ensures var c := art.oneHotColumns[i];
      var r := Preprocess(inp, art);
      r.Success? && c in CategoricalColumns && c in art.factorizedMappings &&
      c !in ScalerFeatures(art.scaler.featureNamesIn) ==>
        var table := art.factorizedMappings[c];
        var v := RawCategory(inp, c);
        r.value.cells[i] == if v in table then Num(table[v] as real) else Num(-1.0)
  {
  }

  /** A numeric field that is not rescaled reaches the model unchanged. */
  lemma NumericInputReachesModel(inp: Inputs, art: Artifacts, i: nat)
    requires i < |art.oneHotColumns|
    ensures var c := art.oneHotColumns[i];
      var r := Preprocess(inp, art);
      r.Success? && c in NumericInputColumns && c !in ScalerFeatures(art.scaler.featureNamesIn) ==>
        r.value.cells[i] ==
          Num(if c == "Brand_ID" then inp.brandId as real else if c == "Year" then inp.year as real else inp.month as real)
  {
  }

  /** A rescaled column reaches the model as the scaler's number for it. */
  lemma ScaledFeatureReachesModel(inp: Inputs, art: Artifacts, i: nat, j: nat)
    requires i < |art.oneHotColumns|
    ensures var features := ScalerFeatures(art.scaler.featureNamesIn);
      var r := Preprocess(inp, art);
      r.Success? && j < |features| && art.oneHotColumns[i] == features[j] && features[j] !in features[j + 1..] ==>
        var encoded := Factorized(InitialRow(inp), art.factorizedMappings);
        var out := art.scaler.transform(features, Select(encoded, features));
        out.Some? && j < |out.value| && r.value.cells[i] == Num(out.value[j])
  {
  }

  /** A categorical field without a mapping table is one-hot encoded: the
      indicator of its value is 1 and its own column, now gone, is 0. */
  lemma UnmappedCategoryIsOneHot(inp: Inputs, art: Artifacts, i: nat, c: string)
    requires i < |art.oneHotColumns|
    requires c in CategoricalColumns
    ensures var r := Preprocess(inp, art);
      r.Success? && c !in art.factorizedMappings && c !in ScalerFeatures(art.scaler.featureNamesIn) ==>
        && (art.oneHotColumns[i] == DummyName(c, RawCategory(inp, c)) ==> r.value.cells[i] == One)
        && (art.oneHotColumns[i] == c ==> r.value.cells[i] == Zero)
  {
    if Preprocess(inp, art).Success? && c !in art.factorizedMappings && c !in ScalerFeatures(art.scaler.featureNamesIn) {
      var encoded := Factorized(InitialRow(inp), art.factorizedMappings);
      var scaled := Scale(encoded, ScalerFeatures(art.scaler.featureNamesIn), art.scaler.transform);
      var dummies := GetDummies(scaled.value);
      var v := RawCategory(inp, c);
      assert scaled.value[c] == Str(v);
      DummyNameFresh(c, v);
      assert DummyName(c, v) !in NumericColumns(scaled.value);
      assert dummies[DummyName(c, v)] == One;
      assert c !in dummies by {
        forall k | k in scaled.value && scaled.value[k].Str? ensures DummyName(k, scaled.value[k].s) != c {
          DummyNameFresh(k, scaled.value[k].s);
        }
      }
    }
  }
}
