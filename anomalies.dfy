/**
 * The anomaly stage (`AnomaliesSpendingAnalyzer`) and the pipelines'
 * selection of the anomalous rows. The isolation forest, fitted on the
 * amount column alone, is not part of this model: it comes in as the
 * function `Outliers`, which tells for the amounts of the whole table
 * whether row `i` is isolated.
 */
module Anomalies {
  import opened Common
  import opened Table

  type Outliers = (seq<real>, nat) -> bool

  /** `df[["amount"]]`: the only feature the forest sees. */
  function AmountColumn(df: seq<Row>): (r: seq<real>)
    ensures |r| == |df| && forall i :: 0 <= i < |df| ==> r[i] == df[i].txn.amount
  {
    seq(|df|, i requires 0 <= i < |df| => df[i].txn.amount)
  }

  /** The table with its `anomaly` column written: 1 for the rows the
      forest predicts -1 for, 0 for the others. Nothing else changes. */
  function WithAnomalies(df: seq<Row>, outliers: Outliers): (r: seq<Row>)
    ensures |r| == |df|
    ensures forall i :: 0 <= i < |df| ==>
      r[i].txn == df[i].txn && r[i].labels == df[i].labels &&
      r[i].anomaly == Some(outliers(AmountColumn(df), i))
    ensures Labelled(r) <==> Labelled(df)
  {
    var amounts := AmountColumn(df);
    seq(|df|, i requires 0 <= i < |df| => df[i].(anomaly := Some(outliers(amounts, i))))
  }

  /** `df[df["anomaly"] == 1]`: the flagged rows, in row order. */
  function AnomalousRows(df: seq<Row>): (r: seq<Row>)
    ensures |r| <= |df|
    ensures forall k :: 0 <= k < |r| ==> r[k] in df && r[k].anomaly == Some(true)
    ensures forall i :: 0 <= i < |df| && df[i].anomaly == Some(true) ==> df[i] in r
    decreases |df|
  {
    if df == [] then []
    else
      var init, last := df[..|df| - 1], df[|df| - 1];
      assert forall i :: 0 <= i < |init| ==> init[i] == df[i];
      AnomalousRows(init) + (if last.anomaly == Some(true) then [last] else [])
  }

  /** Filtering commutes with concatenation: the flagged rows keep their
      order and each occurrence. */
  lemma {:induction false} AnomalousRowsAppend(a: seq<Row>, b: seq<Row>)
    ensures AnomalousRows(a + b) == AnomalousRows(a) + AnomalousRows(b)
    decreases |b|
  {
    if b == [] {
      assert a + b == a;
    } else {
      var ib := b[..|b| - 1];
      AnomalousRowsAppend(a, ib);
      assert (a + b)[..|a + b| - 1] == a + ib;
    }
  }

  /** The anomalies the report lists are exactly the rows the forest
      isolates, with their columns intact. */
  lemma AnomaliesAreTheOutliers(df: seq<Row>, outliers: Outliers)
    ensures forall row :: row in AnomalousRows(WithAnomalies(df, outliers)) ==> row in WithAnomalies(df, outliers)
    ensures forall i :: 0 <= i < |df| ==>
      (WithAnomalies(df, outliers)[i] in AnomalousRows(WithAnomalies(df, outliers)) <==> outliers(AmountColumn(df), i))
  {
    var flagged := WithAnomalies(df, outliers);
    var r := AnomalousRows(flagged);
    forall i | 0 <= i < |df| && flagged[i] in r
      ensures outliers(AmountColumn(df), i)
    {
      var k :| 0 <= k < |r| && r[k] == flagged[i];
    }
  }

  class AnomaliesSpendingAnalyzer {
    var df: seq<Row>

    constructor(df: seq<Row>)
      ensures this.df == df
    {
      this.df := df;
    }

    /** `run`: write the `anomaly` column in place and return the table. */
    method Run(outliers: Outliers) returns (result: seq<Row>)
      modifies this
      ensures df == WithAnomalies(old(df), outliers) && result == df
    {
      df := WithAnomalies(df, outliers);
      result := df;
    }
  }
}
