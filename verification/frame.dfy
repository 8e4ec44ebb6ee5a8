/**
  A one-row pandas frame: the ordered columns of `pd.DataFrame([input_data])`,
  each paired with the single row's value, and the reindexing step that aligns
  such a row with the training schema.
*/
module Frame {
  import opened Wrappers

  /** A cell of the row: a number, or a string held in an object column. */
  datatype Cell = Num(n: real) | Str(s: string)

  /** The columns of a one-row frame, in frame order, each with its value. */
  type Frame = seq<(string, Cell)>

  /** The labels of a labelled sequence (a frame's columns, a dict's keys), in order. */
  function Names<V>(f: seq<(string, V)>): (ns: seq<string>)
    ensures |ns| == |f|
    ensures forall i :: 0 <= i < |f| ==> ns[i] == f[i].0
  {
    seq(|f|, i requires 0 <= i < |f| => f[i].0)
  }

  /** No label occurs twice (pandas refuses to reindex from duplicate labels). */
  predicate DistinctNames(f: Frame) {
    forall i, j :: 0 <= i < j < |f| ==> f[i].0 != f[j].0
  }

  /** Every cell is numeric, as the scaler requires of its input. */
  predicate AllNumeric(f: Frame) {
    forall i :: 0 <= i < |f| ==> f[i].1.Num?
  }

  /** The value of the first entry labelled `name`, if there is one. */
  function Lookup<V>(f: seq<(string, V)>, name: string): (r: Option<V>)
    ensures r.None? <==> forall j :: 0 <= j < |f| ==> f[j].0 != name
    ensures r.Some? ==> exists j :: 0 <= j < |f| && f[j] == (name, r.value)
  {
    if |f| == 0 then None
    else if f[0].0 == name then Some(f[0].1)
    else Lookup(f[1..], name)
  }

  /** With distinct labels, looking up a column's label finds that column's value. */
  lemma LookupDistinct(f: Frame, j: nat)
    requires DistinctNames(f)
    requires j < |f|
    ensures Lookup(f, f[j].0) == Some(f[j].1)
  {
    var r := Lookup(f, f[j].0);
    assert r.Some?;
    var k :| 0 <= k < |f| && f[k] == (f[j].0, r.value);
    if k < j {
      assert f[k].0 == f[j].0;
    } else if j < k {
      assert f[j].0 == f[k].0;
    }
  }

  /** The cell `reindex(..., fill_value=0)` puts in a schema column. */
  function FillZero(c: Option<Cell>): Cell {
    match c
    case Some(v) => v
    case None => Num(0.0)
  }

  /**
    `f.reindex(columns=schema, fill_value=0)`: exactly the schema's columns, in
    schema order; a column the frame has keeps its value, a missing one is 0,
    and frame columns the schema does not name are dropped.
  */
  function Reindex(f: Frame, schema: seq<string>): (g: Frame)
    requires DistinctNames(f)
    ensures |g| == |schema|
    ensures Names(g) == schema
    ensures forall i, j :: 0 <= i < |schema| && 0 <= j < |f| && f[j].0 == schema[i] ==> g[i].1 == f[j].1
    ensures forall i :: 0 <= i < |schema| && schema[i] !in Names(f) ==> g[i].1 == Num(0.0)
  {
    if |schema| == 0 then []
    else
      var rest := Reindex(f, schema[1..]);
      var g := [(schema[0], FillZero(Lookup(f, schema[0])))] + rest;
      forall j | 0 <= j < |f| && f[j].0 == schema[0]
        ensures g[0].1 == f[j].1
      {
        LookupDistinct(f, j);
      }
      g
  }

  /** Reindexing a numeric frame yields a numeric frame (the fill value is numeric). */
  lemma ReindexNumeric(f: Frame, schema: seq<string>)
    requires DistinctNames(f)
    requires AllNumeric(f)
    ensures AllNumeric(Reindex(f, schema))
  {
    var g := Reindex(f, schema);
    forall i | 0 <= i < |g|
      ensures g[i].1.Num?
    {
      if schema[i] in Names(f) {
        var j :| 0 <= j < |f| && Names(f)[j] == schema[i];
        assert f[j].0 == schema[i];
      }
    }
  }

  /** The numeric values of a numeric frame, in column order. */
  function Values(f: Frame): (x: seq<real>)
    requires AllNumeric(f)
    ensures |x| == |f|
    ensures forall i :: 0 <= i < |f| ==> f[i].1 == Num(x[i])
  {
    seq(|f|, i requires 0 <= i < |f| && AllNumeric(f) => f[i].1.n)
  }

  /** The aligned cell in schema position `i` is the frame's value for that label, or 0. */
  lemma ReindexAt(f: Frame, schema: seq<string>, i: nat)
    requires DistinctNames(f)
    requires i < |schema|
    ensures Reindex(f, schema)[i].1 == FillZero(Lookup(f, schema[i]))
  {
    var r := Lookup(f, schema[i]);
    if r.Some? {
      var j :| 0 <= j < |f| && f[j] == (schema[i], r.value);
    } else {
      assert schema[i] !in Names(f);
    }
  }

  /** Looking a label up in `a + b` finds it in `a` first, else in `b`. */
  lemma {:induction false} LookupAppend(a: Frame, b: Frame, name: string)
    ensures Lookup(a + b, name) == if Lookup(a, name).Some? then Lookup(a, name) else Lookup(b, name)
  {
    if |a| > 0 {
      assert (a + b)[1..] == a[1..] + b;
      LookupAppend(a[1..], b, name);
    } else {
      assert a + b == b;
    }
  }
}
