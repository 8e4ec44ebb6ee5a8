/**
  `predict`: the asset guard, alignment of the request to the training schema,
  the scaler and classifier calls, and the dictionary handed to the UI label.
*/
module Pipeline {
  import opened Wrappers
  import opened Frame
  import opened Record
  import opened Conventions

  /** A fitted scaler: the feature count it was fitted on and its stored transform. */
  datatype Scaler = Scaler(nFeaturesIn: nat, transform: seq<real> -> seq<real>)

  /** A trained classifier: its feature count and the two class probabilities it gives a row. */
  datatype Classifier = Classifier(nFeaturesIn: nat, predictProba: seq<real> -> (real, real))

  /** The three artifacts loaded at start-up; a failed load leaves all three `None`. */
  datatype Assets = Assets(
    model: Option<Classifier>,
    scaler: Option<Scaler>,
    trainingColumns: Option<seq<string>>)

  predicate Loaded(a: Assets) {
    a.model.Some? && a.scaler.Some? && a.trainingColumns.Some?
  }

  /** The exceptions the processing step can raise. */
  datatype Fault =
    | ScalerFeatureCount(expected: nat, got: nat)   // scaler.transform on a row of the wrong width
    | ScaledShape(columns: nat, got: nat)           // DataFrame(scaled, columns=training_columns) shape clash
    | ModelFeatureCount(expected: nat, got: nat)    // predict_proba on a row of the wrong width

  /** The text of a fault, as it follows "Prediction Error: ". */
  function Describe(f: Fault): string {
    match f
    case ScalerFeatureCount(_, _) => "input width does not match the scaler's feature count"
    case ScaledShape(_, _) => "scaled width does not match the training columns"
    case ModelFeatureCount(_, _) => "input width does not match the model's feature count"
  }

  /** The feature vector the schema asks for, stated on the record alone. */
  function Features(conv: Convention, r: InputRecord, columns: seq<string>): (x: seq<real>)
    ensures |x| == |columns|
  {
    seq(|columns|, i requires 0 <= i < |columns| => Expected(conv, r, columns[i]))
  }

  /** The aligned row's values are the reference feature vector. */
  lemma AlignedFeatures(conv: Convention, r: InputRecord, columns: seq<string>)
    ensures Values(Align(conv, r, columns)) == Features(conv, r, columns)
  {
    var x := Values(Align(conv, r, columns));
    forall i | 0 <= i < |columns|
      ensures x[i] == Features(conv, r, columns)[i]
    {
      AlignedCell(conv, r, columns, i);
    }
  }

  /**
    The `try` block of `predict`: encode, align, scale, classify. Its only
    failures are width clashes, and the scaler's one depends on the schema
    length alone, never on the record.
  */
  function Run(conv: Convention, model: Classifier, scaler: Scaler, columns: seq<string>, r: InputRecord)
    : (res: Result<(real, real), Fault>)
    ensures (res.Failure? && res.error.ScalerFeatureCount?) <==> scaler.nFeaturesIn != |columns|
    ensures res.Success? <==>
              && scaler.nFeaturesIn == |columns|
              && |scaler.transform(Features(conv, r, columns))| == |columns|
              && model.nFeaturesIn == |columns|
    ensures res.Success? ==> res.value == model.predictProba(scaler.transform(Features(conv, r, columns)))
  {
    AlignedFeatures(conv, r, columns);
    var x := Values(Align(conv, r, columns));
    if |x| != scaler.nFeaturesIn then Failure(ScalerFeatureCount(scaler.nFeaturesIn, |x|))
    else
      var scaled := scaler.transform(x);
      if |scaled| != |columns| then Failure(ScaledShape(|columns|, |scaled|))
      else if |scaled| != model.nFeaturesIn then Failure(ModelFeatureCount(model.nFeaturesIn, |scaled|))
      else Success(model.predictProba(scaled))
  }

  /** A value of the returned dictionary. */
  datatype Value = Real(x: real) | Text(s: string)

  /** A Python dict with string keys, in insertion order. */
  type Dict = seq<(string, Value)>

  const AssetsMessage: string := "Model assets not loaded."
  const ErrorPrefix: string := "Prediction Error: "
  const NoDiabetesLabel: string := "Prediction: No Diabetes"
  const DiabetesLabel: string := "Prediction: Diabetes"

  /** The error dictionary `predict` returns: `{"Error": 1.0, "Message": message}`. */
  function ErrorDict(message: string): (d: Dict)
    ensures Names(d) == ["Error", "Message"]
    ensures Lookup(d, "Error") == Some(Real(1.0))
    ensures Lookup(d, "Message") == Some(Text(message))
  {
    [("Error", Real(1.0)), ("Message", Text(message))]
  }

  /** The label dictionary: class 0 under "No Diabetes", class 1 under "Diabetes", and no error key. */
  function ScoresDict(proba: (real, real)): (d: Dict)
    ensures Names(d) == [NoDiabetesLabel, DiabetesLabel]
    ensures Lookup(d, NoDiabetesLabel) == Some(Real(proba.0))
    ensures Lookup(d, DiabetesLabel) == Some(Real(proba.1))
    ensures Lookup(d, "Error").None?
  {
    var d := [(NoDiabetesLabel, Real(proba.0)), (DiabetesLabel, Real(proba.1))];
    assert d[1..] == [(DiabetesLabel, Real(proba.1))];
    d
  }

  /**
    `predict`: when an asset is missing the assets error, without touching the
    record; otherwise the two class probabilities under their labels, or the
    processing error when a step raises.
  */
  function Predict(conv: Convention, assets: Assets, r: InputRecord): (d: Dict)
    ensures !Loaded(assets) ==> d == ErrorDict(AssetsMessage)
    ensures Loaded(assets) ==>
              var res := Run(conv, assets.model.value, assets.scaler.value, assets.trainingColumns.value, r);
              && (res.Success? ==>
                    && Names(d) == [NoDiabetesLabel, DiabetesLabel]
                    && Lookup(d, NoDiabetesLabel) == Some(Real(res.value.0))
                    && Lookup(d, DiabetesLabel) == Some(Real(res.value.1)))
              && (res.Failure? ==> d == ErrorDict(ErrorPrefix + Describe(res.error)))
    ensures Lookup(d, "Error").Some? <==>
              !Loaded(assets)
              || Run(conv, assets.model.value, assets.scaler.value, assets.trainingColumns.value, r).Failure?
  {
    if !Loaded(assets) then ErrorDict(AssetsMessage)
    else
      match Run(conv, assets.model.value, assets.scaler.value, assets.trainingColumns.value, r)
      case Failure(e) => ErrorDict(ErrorPrefix + Describe(e))
      case Success(proba) => ScoresDict(proba)
  }

  /**
    What the user sees from the live handler does not depend on gender or
    smoking history: records agreeing on the numeric fields get the same answer.
  */
  lemma PredictIgnoresCategoricals(assets: Assets, r1: InputRecord, r2: InputRecord)
    requires SameNumerics(r1, r2)
    ensures Predict(AsWritten, assets, r1) == Predict(AsWritten, assets, r2)
  {
    if Loaded(assets) {
      var columns := assets.trainingColumns.value;
      LiveIgnoresCategoricals(r1, r2, columns);
      AlignedFeatures(AsWritten, r1, columns);
      AlignedFeatures(AsWritten, r2, columns);
      assert Features(AsWritten, r1, columns) == Features(AsWritten, r2, columns);
      assert Run(AsWritten, assets.model.value, assets.scaler.value, columns, r1)
          == Run(AsWritten, assets.model.value, assets.scaler.value, columns, r2);
    }
  }
}
