/**
  The two frame transformations `predict` applies before alignment: the
  `Other` to `Male` gender rewrite and pandas' one-hot encoding (`get_dummies`)
  of a one-row frame.
*/
module Encoding {
  import opened Frame

  /** The gender rewrite of one column: only an `Other` gender cell changes. */
  function RewriteGender(col: (string, Cell)): (string, Cell) {
    if col.0 == "gender" && col.1 == Str("Other") then (col.0, Str("Male")) else col
  }

  /**
    `input_df['gender'].replace({'Other': 'Male'})`: a gender of `Other` becomes
    `Male`; every other gender value and every other column is left as it was.
  */
  function ReplaceOther(f: Frame): (g: Frame)
    ensures Names(g) == Names(f)
    ensures forall i :: 0 <= i < |f| && f[i].0 != "gender" ==> g[i] == f[i]
    ensures forall i :: 0 <= i < |f| && f[i].0 == "gender" && f[i].1 == Str("Other") ==> g[i].1 == Str("Male")
    ensures forall i :: 0 <= i < |f| && f[i].1 != Str("Other") ==> g[i] == f[i]
    ensures forall i :: 0 <= i < |g| && g[i].0 == "gender" ==> g[i].1 != Str("Other")
  {
    seq(|f|, i requires 0 <= i < |f| => RewriteGender(f[i]))
  }

  /** Rewriting twice is the same as rewriting once. */
  lemma ReplaceOtherIdempotent(f: Frame)
    ensures ReplaceOther(ReplaceOther(f)) == ReplaceOther(f)
  {
  }

  /** The columns `get_dummies` leaves alone (those not being encoded), in frame order. */
  function Untouched(f: Frame, cols: seq<string>): (g: Frame)
    ensures |g| <= |f|
  {
    if |f| == 0 then []
    else if f[0].0 in cols then Untouched(f[1..], cols)
    else [f[0]] + Untouched(f[1..], cols)
  }

  /**
    The untouched columns are exactly the frame's columns outside `cols`: each
    kept column comes from the frame and is not encoded, and each frame column
    that is not encoded is kept.
  */
  lemma {:induction false} UntouchedIsFilter(f: Frame, cols: seq<string>)
    ensures forall k :: 0 <= k < |Untouched(f, cols)| ==> Untouched(f, cols)[k] in f && Untouched(f, cols)[k].0 !in cols
    ensures forall j :: 0 <= j < |f| && f[j].0 !in cols ==> f[j] in Untouched(f, cols)
  {
    if |f| > 0 {
      UntouchedIsFilter(f[1..], cols);
      var g := Untouched(f, cols);
      var rest := Untouched(f[1..], cols);
      forall j | 0 <= j < |f| && f[j].0 !in cols
        ensures f[j] in g
      {
        if j > 0 {
          assert f[j] == f[1..][j - 1];
        }
      }
    }
  }

  /** The untouched columns of a concatenation are those of each part, in order. */
  lemma {:induction false} UntouchedAppend(a: Frame, b: Frame, cols: seq<string>)
    ensures Untouched(a + b, cols) == Untouched(a, cols) + Untouched(b, cols)
  {
    if |a| == 0 {
      assert a + b == b;
    } else {
      assert (a + b)[1..] == a[1..] + b;
      UntouchedAppend(a[1..], b, cols);
    }
  }

  /** A frame with no column to encode is left whole. */
  lemma {:induction false} UntouchedKeepsAll(f: Frame, cols: seq<string>)
    requires forall k :: 0 <= k < |f| ==> f[k].0 !in cols
    ensures Untouched(f, cols) == f
  {
    if |f| > 0 {
      UntouchedKeepsAll(f[1..], cols);
    }
  }

  /** Column `c` exists and holds a string, so `get_dummies` can encode it. */
  predicate IsText(f: Frame, c: string) {
    Lookup(f, c).Some? && Lookup(f, c).value.Str?
  }

  /** The string held in text column `c`. */
  function TextOf(f: Frame, c: string): string
    requires IsText(f, c)
  {
    Lookup(f, c).value.s
  }

  /**
    The levels `get_dummies` sees in column `c`: the distinct values observed in
    the frame, sorted. A one-row frame observes exactly one value.
  */
  function Levels(f: Frame, c: string): (levels: seq<string>)
    requires IsText(f, c)
  {
    [TextOf(f, c)]
  }

  /** The label pandas gives the indicator of `level` in column `c`. */
  function IndicatorName(c: string, level: string): string {
    c + "_" + level
  }

  /** One indicator column `<c>_<level>` per level, 1 for the row's value and 0 otherwise. */
  function IndicatorColumns(c: string, observed: string, levels: seq<string>): (g: Frame)
    ensures |g| == |levels|
    ensures forall k :: 0 <= k < |levels| ==> g[k].0 == IndicatorName(c, levels[k])
    ensures forall k :: 0 <= k < |levels| ==> g[k].1 == Num(if levels[k] == observed then 1.0 else 0.0)
  {
    if |levels| == 0 then []
    else [(IndicatorName(c, levels[0]), Num(if levels[0] == observed then 1.0 else 0.0))]
         + IndicatorColumns(c, observed, levels[1..])
  }

  /**
    The indicator blocks `get_dummies` appends, one block per encoded column in
    the order given, each block dropping its first level when `dropFirst`. On a
    one-row frame `drop_first=True` drops the only level, so nothing is appended;
    otherwise each encoded column contributes exactly `<c>_<value>` set to 1.
  */
  function Indicators(f: Frame, cols: seq<string>, dropFirst: bool): (g: Frame)
    requires forall c :: c in cols ==> IsText(f, c)
    ensures dropFirst ==> g == []
    ensures !dropFirst ==> |g| == |cols|
    ensures !dropFirst ==> forall k :: 0 <= k < |cols| ==> g[k] == (IndicatorName(cols[k], TextOf(f, cols[k])), Num(1.0))
  {
    if |cols| == 0 then []
    else
      var c := cols[0];
      var levels := Levels(f, c);
      IndicatorColumns(c, TextOf(f, c), if dropFirst then levels[1..] else levels)
        + Indicators(f, cols[1..], dropFirst)
  }

  /**
    Reference for the indicators of a one-row frame when every level is kept:
    `<c>_<value>` set to 1 for each encoded column `c`, in the order given.
  */
  function ObservedIndicators(f: Frame, cols: seq<string>): Frame
    requires forall c :: c in cols ==> IsText(f, c)
  {
    seq(|cols|, k requires 0 <= k < |cols| && (forall c :: c in cols ==> IsText(f, c)) =>
      (IndicatorName(cols[k], TextOf(f, cols[k])), Num(1.0)))
  }

  /**
    `pd.get_dummies(f, columns=cols, drop_first=dropFirst)` on a one-row frame:
    the untouched columns in their order, followed by the indicator blocks.
  */
  function GetDummies(f: Frame, cols: seq<string>, dropFirst: bool): (g: Frame)
    requires forall c :: c in cols ==> IsText(f, c)
    ensures dropFirst ==> g == Untouched(f, cols)
    ensures !dropFirst ==> g == Untouched(f, cols) + ObservedIndicators(f, cols)
  {
    var ind := Indicators(f, cols, dropFirst);
    assert !dropFirst ==> ind == ObservedIndicators(f, cols);
    Untouched(f, cols) + ind
  }
}
