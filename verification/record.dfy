/** The eight clinical attributes `predict` receives, and the frame built from them. */
module Record {
  import opened Wrappers
  import opened Frame

  /** One prediction request; the column labels below keep the source's spellings. */
  datatype InputRecord = InputRecord(
    gender: string,
    age: real,
    hypertension: real,
    heartDisease: real,
    smokingHistory: string,
    bmi: real,
    hba1cLevel: real,
    bloodGlucoseLevel: real)

  /** The two columns `predict` one-hot encodes, in the order it lists them. */
  const CategoricalFields: seq<string> := ["gender", "smoking_history"]

  /** The six numeric columns, in the frame's column order. */
  const NumericFields: seq<string> :=
    ["age", "hypertension", "heart_disease", "bmi", "HbA1c_level", "blood_glucose_level"]

  /** `pd.DataFrame([input_data])`: one column per field, in the dict's insertion order. */
  function ToFrame(r: InputRecord): (f: Frame)
    ensures Names(f) == ["gender", "age", "hypertension", "heart_disease",
                         "smoking_history", "bmi", "HbA1c_level", "blood_glucose_level"]
  {
    [ ("gender", Str(r.gender)),
      ("age", Num(r.age)),
      ("hypertension", Num(r.hypertension)),
      ("heart_disease", Num(r.heartDisease)),
      ("smoking_history", Str(r.smokingHistory)),
      ("bmi", Num(r.bmi)),
      ("HbA1c_level", Num(r.hba1cLevel)),
      ("blood_glucose_level", Num(r.bloodGlucoseLevel)) ]
  }

  /** The record's value for a numeric column label, if `name` is one. */
  function NumericValue(r: InputRecord, name: string): (v: Option<real>)
    ensures v.Some? <==> name in NumericFields
  {
    if name == "age" then Some(r.age)
    else if name == "hypertension" then Some(r.hypertension)
    else if name == "heart_disease" then Some(r.heartDisease)
    else if name == "bmi" then Some(r.bmi)
    else if name == "HbA1c_level" then Some(r.hba1cLevel)
    else if name == "blood_glucose_level" then Some(r.bloodGlucoseLevel)
    else None
  }

  /** The six numeric columns of the record's frame, in frame order. */
  function NumericPart(r: InputRecord): (f: Frame)
    ensures Names(f) == NumericFields
    ensures forall i :: 0 <= i < |f| ==> f[i].1 == Num(NumericValue(r, f[i].0).value)
  {
    [ ("age", Num(r.age)),
      ("hypertension", Num(r.hypertension)),
      ("heart_disease", Num(r.heartDisease)),
      ("bmi", Num(r.bmi)),
      ("HbA1c_level", Num(r.hba1cLevel)),
      ("blood_glucose_level", Num(r.bloodGlucoseLevel)) ]
  }

  /** Two records that agree on every numeric field. */
  predicate SameNumerics(r1: InputRecord, r2: InputRecord) {
    && r1.age == r2.age
    && r1.hypertension == r2.hypertension
    && r1.heartDisease == r2.heartDisease
    && r1.bmi == r2.bmi
    && r1.hba1cLevel == r2.hba1cLevel
    && r1.bloodGlucoseLevel == r2.bloodGlucoseLevel
  }
}
