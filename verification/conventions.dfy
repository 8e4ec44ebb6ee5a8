/**
  The encoders `predict` has used, each followed by alignment to the training
  schema:

  - AsWritten: rewrite gender `Other` to `Male`, then `get_dummies` both
    categorical columns with `drop_first=True` (the live handler);
  - SplitEncoding: no gender rewrite, `drop_first=True` on gender only, then
    every smoking level kept (the commented-out Flask handler);
  - KeepAllLevels: the gender rewrite, then every level of both columns kept;
    reindexing drops whichever indicator the schema does not hold, which is how
    the training frame's dropped baseline level comes out as all zeros.
*/
module Conventions {
  import opened Wrappers
  import opened Frame
  import opened Record
  import opened Encoding

  datatype Convention = AsWritten | SplitEncoding | KeepAllLevels

  /** The gender value after the `Other` to `Male` rewrite. */
  function MapGender(g: string): string {
    if g == "Other" then "Male" else g
  }

  /** A record's frame has eight distinct column labels. */
  lemma RecordFrameDistinct(r: InputRecord)
    ensures DistinctNames(ToFrame(r))
  {
  }

  /** On the record's frame the gender rewrite is a rewrite of the record's gender. */
  lemma ReplaceOtherOnRecord(r: InputRecord)
    ensures ReplaceOther(ToFrame(r)) == ToFrame(r.(gender := MapGender(r.gender)))
  {
  }

  /** Both categorical columns of a record's frame are text columns holding its values. */
  lemma RecordTextColumns(r: InputRecord)
    ensures IsText(ToFrame(r), "gender") && TextOf(ToFrame(r), "gender") == r.gender
    ensures IsText(ToFrame(r), "smoking_history") && TextOf(ToFrame(r), "smoking_history") == r.smokingHistory
  {
    RecordFrameDistinct(r);
    LookupDistinct(ToFrame(r), 0);
    LookupDistinct(ToFrame(r), 4);
  }

  /** Dropping both categorical columns of a record's frame leaves its numeric part. */
  lemma UntouchedRecord(r: InputRecord)
    ensures Untouched(ToFrame(r), CategoricalFields) == NumericPart(r)
  {
    var f := ToFrame(r);
    var cols := CategoricalFields;
    assert f == [f[0]] + f[1..4] + [f[4]] + f[5..];
    UntouchedAppend([f[0]] + f[1..4] + [f[4]], f[5..], cols);
    UntouchedAppend([f[0]] + f[1..4], [f[4]], cols);
    UntouchedAppend([f[0]], f[1..4], cols);
    UntouchedKeepsAll(f[1..4], cols);
    UntouchedKeepsAll(f[5..], cols);
    assert Untouched([f[0]], cols) == [];
    assert Untouched([f[4]], cols) == [];
  }

  /** Dropping the gender column of a record's frame leaves the other seven columns. */
  lemma UntouchedGender(r: InputRecord)
    ensures Untouched(ToFrame(r), ["gender"]) == ToFrame(r)[1..]
  {
    var f := ToFrame(r);
    assert f == [f[0]] + f[1..];
    UntouchedAppend([f[0]], f[1..], ["gender"]);
    UntouchedKeepsAll(f[1..], ["gender"]);
    assert Untouched([f[0]], ["gender"]) == [];
  }

  /** Dropping smoking history from those seven columns leaves the numeric part. */
  lemma UntouchedSmoking(r: InputRecord)
    ensures Untouched(ToFrame(r)[1..], ["smoking_history"]) == NumericPart(r)
  {
    var f := ToFrame(r);
    var cols := ["smoking_history"];
    assert f[1..] == f[1..4] + [f[4]] + f[5..];
    UntouchedAppend(f[1..4] + [f[4]], f[5..], cols);
    UntouchedAppend(f[1..4], [f[4]], cols);
    UntouchedKeepsAll(f[1..4], cols);
    UntouchedKeepsAll(f[5..], cols);
    assert Untouched([f[4]], cols) == [];
  }

  /** An indicator label never collides with a numeric column's label. */
  lemma IndicatorNotNumeric(c: string, level: string)
    requires c == "gender" || c == "smoking_history"
    ensures IndicatorName(c, level) !in NumericFields
  {
    assert IndicatorName(c, level)[0] == c[0];
  }

  /** The frame `predict` feeds to `get_dummies`: the gender-rewritten record frame. */
  lemma RewrittenTextColumns(r: InputRecord)
    ensures IsText(ReplaceOther(ToFrame(r)), "gender")
    ensures TextOf(ReplaceOther(ToFrame(r)), "gender") == MapGender(r.gender)
    ensures IsText(ReplaceOther(ToFrame(r)), "smoking_history")
    ensures TextOf(ReplaceOther(ToFrame(r)), "smoking_history") == r.smokingHistory
  {
    ReplaceOtherOnRecord(r);
    RecordTextColumns(r.(gender := MapGender(r.gender)));
  }

  /**
    The live encoder (`replace` then `get_dummies(..., drop_first=True)` on both
    categorical columns) yields exactly the six numeric columns, in frame order,
    with the record's values: each categorical column has one observed level and
    `drop_first` removes it.
  */
  function AsWrittenRow(r: InputRecord): (f: Frame)
    ensures f == NumericPart(r)
  {
    RewrittenTextColumns(r);
    ReplaceOtherOnRecord(r);
    UntouchedRecord(r.(gender := MapGender(r.gender)));
    GetDummies(ReplaceOther(ToFrame(r)), CategoricalFields, true)
  }

  /**
    The split encoder (`drop_first=True` on gender, then every smoking level
    kept, no gender rewrite) yields the numeric columns followed by the single
    indicator `smoking_history_<value>` set to 1; gender contributes nothing.
  */
  function SplitRow(r: InputRecord): (f: Frame)
    ensures f == NumericPart(r) + [(IndicatorName("smoking_history", r.smokingHistory), Num(1.0))]
  {
    RecordTextColumns(r);
    UntouchedGender(r);
    UntouchedSmoking(r);
    var step := GetDummies(ToFrame(r), ["gender"], true);
    assert step == ToFrame(r)[1..];
    assert step[3].0 == "smoking_history";
    assert Lookup(step, "smoking_history") == Some(Str(r.smokingHistory)) by {
      RecordFrameDistinct(r);
      LookupDistinct(step, 3);
    }
    GetDummies(step, ["smoking_history"], false)
  }

  /**
    Keeping every level of both columns after the gender rewrite yields the
    numeric columns followed by `gender_<value>` and `smoking_history_<value>`,
    both set to 1.
  */
  function KeepAllRow(r: InputRecord): (f: Frame)
    ensures f == NumericPart(r) + [(IndicatorName("gender", MapGender(r.gender)), Num(1.0)),
                                   (IndicatorName("smoking_history", r.smokingHistory), Num(1.0))]
  {
    RewrittenTextColumns(r);
    ReplaceOtherOnRecord(r);
    UntouchedRecord(r.(gender := MapGender(r.gender)));
    GetDummies(ReplaceOther(ToFrame(r)), CategoricalFields, false)
  }

  /** Numeric columns followed by numeric indicators with fresh, distinct labels form a well-formed row. */
  lemma NumericPartExtended(r: InputRecord, extra: Frame)
    requires DistinctNames(extra) && AllNumeric(extra)
    requires forall k :: 0 <= k < |extra| ==> extra[k].0 !in NumericFields
    ensures DistinctNames(NumericPart(r) + extra) && AllNumeric(NumericPart(r) + extra)
  {
    var f := NumericPart(r) + extra;
    forall i, j | 0 <= i < j < |f|
      ensures f[i].0 != f[j].0
    {
      if j >= 6 {
        if i < 6 {
          assert f[i].0 == NumericFields[i];
          assert f[j] == extra[j - 6];
        } else {
          assert f[i] == extra[i - 6];
          assert f[j] == extra[j - 6];
        }
      }
    }
  }

  /** The encoded row of each convention, before alignment. */
  function Encode(conv: Convention, r: InputRecord): (f: Frame)
    ensures DistinctNames(f) && AllNumeric(f)
  {
    var gi := IndicatorName("gender", MapGender(r.gender));
    var si := IndicatorName("smoking_history", r.smokingHistory);
    match conv
    case AsWritten =>
      NumericPartExtended(r, []);
      assert NumericPart(r) + [] == NumericPart(r);
      AsWrittenRow(r)
    case SplitEncoding =>
      IndicatorNotNumeric("smoking_history", r.smokingHistory);
      NumericPartExtended(r, [(si, Num(1.0))]);
      SplitRow(r)
    case KeepAllLevels =>
      IndicatorNotNumeric("gender", MapGender(r.gender));
      IndicatorNotNumeric("smoking_history", r.smokingHistory);
      assert gi[0] != si[0];
      NumericPartExtended(r, [(gi, Num(1.0)), (si, Num(1.0))]);
      KeepAllRow(r)
  }

  /** The row handed to the scaler: the encoded row reindexed to the schema, zero-filled. */
  function Align(conv: Convention, r: InputRecord, schema: seq<string>): (g: Frame)
    ensures |g| == |schema| && Names(g) == schema
    ensures AllNumeric(g)
  {
    ReindexNumeric(Encode(conv, r), schema);
    Reindex(Encode(conv, r), schema)
  }

  /** The value a categorical column contributes under the gender rewrite. */
  function Observed(r: InputRecord, c: string): string {
    if c == "gender" then MapGender(r.gender) else r.smokingHistory
  }

  /**
    Reference for the aligned row, stated on the record alone: a numeric label
    carries its field; an indicator label the convention produces carries 1;
    every other label carries 0.
  */
  function Expected(conv: Convention, r: InputRecord, name: string): real {
    if name in NumericFields then NumericValue(r, name).value
    else if conv == KeepAllLevels && name == IndicatorName("gender", MapGender(r.gender)) then 1.0
    else if conv != AsWritten && name == IndicatorName("smoking_history", r.smokingHistory) then 1.0
    else 0.0
  }

  /** Looking a label up in the numeric part finds the record's numeric field, if it is one. */
  lemma LookupNumericPart(r: InputRecord, name: string)
    ensures Lookup(NumericPart(r), name)
            == if name in NumericFields then Some(Num(NumericValue(r, name).value)) else None
  {
    if name in NumericFields {
      var k :| 0 <= k < |NumericFields| && NumericFields[k] == name;
      NumericPartExtended(r, []);
      assert NumericPart(r) + [] == NumericPart(r);
      assert NumericPart(r)[k].0 == name;
      LookupDistinct(NumericPart(r), k);
    } else {
      assert Names(NumericPart(r)) == NumericFields;
    }
  }

  /** Looking a label up in a one-column frame finds that column's value exactly when the labels match. */
  lemma LookupSingle(col: (string, Cell), name: string)
    ensures Lookup([col], name) == if col.0 == name then Some(col.1) else None
  {
    assert [col][1..] == [];
  }

  /** Looking a label up in the split encoder's row agrees with the reference. */
  lemma LookupSplitRow(r: InputRecord, name: string)
    ensures FillZero(Lookup(SplitRow(r), name)) == Num(Expected(SplitEncoding, r, name))
  {
    var si := IndicatorName("smoking_history", r.smokingHistory);
    LookupNumericPart(r, name);
    IndicatorNotNumeric("smoking_history", r.smokingHistory);
    LookupAppend(NumericPart(r), [(si, Num(1.0))], name);
    LookupSingle((si, Num(1.0)), name);
  }

  /** Looking a label up in the corrected encoder's row agrees with the reference. */
  lemma LookupKeepAllRow(r: InputRecord, name: string)
    ensures FillZero(Lookup(KeepAllRow(r), name)) == Num(Expected(KeepAllLevels, r, name))
  {
    var gi := IndicatorName("gender", MapGender(r.gender));
    var si := IndicatorName("smoking_history", r.smokingHistory);
    LookupNumericPart(r, name);
    IndicatorNotNumeric("gender", MapGender(r.gender));
    IndicatorNotNumeric("smoking_history", r.smokingHistory);
    assert gi[0] != si[0];
    var tail := [(gi, Num(1.0)), (si, Num(1.0))];
    assert tail == [tail[0]] + [tail[1]];
    LookupAppend(NumericPart(r), tail, name);
    LookupAppend([tail[0]], [tail[1]], name);
    LookupSingle(tail[0], name);
    LookupSingle(tail[1], name);
  }

  /** Every convention's encoded row, looked up by label, agrees with the reference. */
  lemma LookupEncoded(conv: Convention, r: InputRecord, name: string)
    ensures FillZero(Lookup(Encode(conv, r), name)) == Num(Expected(conv, r, name))
  {
    match conv
    case AsWritten =>
      LookupNumericPart(r, name);
    case SplitEncoding =>
      LookupSplitRow(r, name);
    case KeepAllLevels =>
      LookupKeepAllRow(r, name);
  }

  /** Each aligned cell is the reference value for its schema label. */
  lemma AlignedCell(conv: Convention, r: InputRecord, schema: seq<string>, i: nat)
    requires i < |schema|
    ensures Align(conv, r, schema)[i] == (schema[i], Num(Expected(conv, r, schema[i])))
  {
    ReindexAt(Encode(conv, r), schema, i);
    LookupEncoded(conv, r, schema[i]);
    assert Names(Align(conv, r, schema))[i] == schema[i];
  }

  /**
    Under the live encoder every schema column other than the six numeric ones
    is 0, and each numeric one carries the record's field.
  */
  lemma AsWrittenAlignedRow(r: InputRecord, schema: seq<string>)
    ensures forall i :: 0 <= i < |schema| && schema[i] !in NumericFields ==> Align(AsWritten, r, schema)[i].1 == Num(0.0)
    ensures forall i :: 0 <= i < |schema| && schema[i] in NumericFields ==>
              Align(AsWritten, r, schema)[i].1 == Num(NumericValue(r, schema[i]).value)
  {
    forall i | 0 <= i < |schema|
      ensures Align(AsWritten, r, schema)[i].1 == Num(Expected(AsWritten, r, schema[i]))
    {
      AlignedCell(AsWritten, r, schema, i);
    }
  }

  /**
    The live aligned row does not depend on gender or smoking history: two
    records that agree on the numeric fields give identical rows.
  */
  lemma LiveIgnoresCategoricals(r1: InputRecord, r2: InputRecord, schema: seq<string>)
    requires SameNumerics(r1, r2)
    ensures Align(AsWritten, r1, schema) == Align(AsWritten, r2, schema)
  {
    assert NumericPart(r1) == NumericPart(r2);
    assert Encode(AsWritten, r1) == Encode(AsWritten, r2);
  }

  /** Skipping the `Other` to `Male` rewrite gives the same live encoded row. */
  lemma OtherToMaleIrrelevant(r: InputRecord)
    ensures IsText(ToFrame(r), "gender") && IsText(ToFrame(r), "smoking_history")
    ensures GetDummies(ToFrame(r), CategoricalFields, true) == AsWrittenRow(r)
  {
    RecordTextColumns(r);
    UntouchedRecord(r);
  }

  /**
    For a schema holding the observed smoking level's indicator, the live and the
    split encoders disagree in that column: 0 live, 1 split.
  */
  lemma ConventionsDiverge(r: InputRecord, schema: seq<string>, i: nat)
    requires i < |schema| && schema[i] == IndicatorName("smoking_history", r.smokingHistory)
    ensures Align(AsWritten, r, schema)[i].1 == Num(0.0)
    ensures Align(SplitEncoding, r, schema)[i].1 == Num(1.0)
    ensures Align(AsWritten, r, schema) != Align(SplitEncoding, r, schema)
  {
    IndicatorNotNumeric("smoking_history", r.smokingHistory);
    AlignedCell(AsWritten, r, schema, i);
    AlignedCell(SplitEncoding, r, schema, i);
  }

  /** Two indicators of one column share a label only for the same level. */
  lemma IndicatorNameInjective(c: string, v: string, w: string)
    ensures IndicatorName(c, v) == IndicatorName(c, w) <==> v == w
  {
    if IndicatorName(c, v) == IndicatorName(c, w) {
      assert v == IndicatorName(c, v)[|c| + 1..];
      assert w == IndicatorName(c, w)[|c| + 1..];
    }
  }

  /**
    Keeping every level and letting the reindex drop the baseline sets a
    categorical column's indicator to 1 exactly when its level is the record's
    (rewritten) value, and to 0 otherwise.
  */
  lemma CorrectedSetsIndicator(r: InputRecord, schema: seq<string>, i: nat, c: string, v: string)
    requires c in CategoricalFields
    requires i < |schema| && schema[i] == IndicatorName(c, v)
    ensures Align(KeepAllLevels, r, schema)[i].1 == Num(if v == Observed(r, c) then 1.0 else 0.0)
  {
    AlignedCell(KeepAllLevels, r, schema, i);
    IndicatorNotNumeric(c, v);
    IndicatorNameInjective(c, v, Observed(r, c));
    assert IndicatorName("gender", MapGender(r.gender))[0] != IndicatorName("smoking_history", r.smokingHistory)[0];
    assert IndicatorName(c, v)[0] == c[0];
  }

  /** The diagnostic request: an 80-year-old woman who never smoked. */
  function DebugRecord(): InputRecord {
    InputRecord("Female", 80.0, 1.0, 1.0, "never", 27.32, 6.6, 140.0)
  }

  /** The six numeric columns of the diagnostic request. */
  function DebugNumeric(): Frame {
    [ ("age", Num(80.0)), ("hypertension", Num(1.0)), ("heart_disease", Num(1.0)),
      ("bmi", Num(27.32)), ("HbA1c_level", Num(6.6)), ("blood_glucose_level", Num(140.0)) ]
  }

  /**
    On the diagnostic request the live encoder yields only the six numeric
    columns: there is no `gender_*` and no `smoking_history_*` column at all.
  */
  lemma DebugRecordAsWritten()
    ensures Encode(AsWritten, DebugRecord()) == DebugNumeric()
  {
  }

  /** The smoking indicator of the diagnostic request is labelled `smoking_history_never`. */
  lemma SmokingNeverLabel()
    ensures IndicatorName("smoking_history", "never") == "smoking_history_never"
  {
  }

  /** The split encoder adds `smoking_history_never`, set to 1, to the diagnostic request. */
  lemma DebugRecordSplit()
    ensures Encode(SplitEncoding, DebugRecord()) == DebugNumeric() + [("smoking_history_never", Num(1.0))]
  {
    SmokingNeverLabel();
  }

  /** Keeping every level adds `gender_Female` and `smoking_history_never`, both 1. */
  lemma DebugRecordKeepAll()
    ensures Encode(KeepAllLevels, DebugRecord())
            == DebugNumeric() + [("gender_Female", Num(1.0)), ("smoking_history_never", Num(1.0))]
  {
    assert MapGender("Female") == "Female";
    assert IndicatorName("gender", "Female") == "gender_Female";
    SmokingNeverLabel();
  }
}
