/**
 * The re-labelling of "other operations" (`ClassificationOtherOperation`):
 * a text classifier is trained on the rows whose final category is known,
 * its predictions replace the final category of every row the bank left as
 * "other operations", and every other row gets its bank category back.
 *
 * TF-IDF and logistic regression are not part of this model: the training
 * set is computed, and the predictions come in as a sequence with one
 * label per re-labelled row, in row order.
 */
module OtherOperations {
  import opened Common
  import opened Table
  import opened Categorization

  /** A training example: the description and its label. */
  datatype Example = Example(text: string, target: string)

  /** `train_df`: the rows whose final category is not the sentinel,
      labelled by that final category. */
  function TrainingSet(df: seq<Row>): (r: seq<Example>)
    requires Labelled(df)
    ensures |r| <= |df|
    ensures forall k :: 0 <= k < |r| ==>
      r[k].target != OtherOperations &&
      exists i :: 0 <= i < |df| && r[k] == Example(df[i].txn.description, FinalCategory(df[i]))
    ensures forall i :: 0 <= i < |df| && FinalCategory(df[i]) != OtherOperations ==>
      Example(df[i].txn.description, FinalCategory(df[i])) in r
    decreases |df|
  {
    if df == [] then []
    else
      var init := df[..|df| - 1];
      var last := df[|df| - 1];
      assert forall i :: 0 <= i < |init| ==> init[i] == df[i];
      TrainingSet(init) +
      (if FinalCategory(last) != OtherOperations then [Example(last.txn.description, FinalCategory(last))] else [])
  }

  /** `mask`: the bank category is the sentinel. */
  predicate Masked(r: Row) {
    r.txn.category == OtherOperations
  }

  /** How many rows of `df` are masked. */
  function MaskedCount(df: seq<Row>): (n: nat)
    ensures n <= |df|
  {
    if df == [] then 0
    else MaskedCount(df[..|df| - 1]) + (if Masked(df[|df| - 1]) then 1 else 0)
  }

  /** The row with its final category replaced. */
  function WithFinal(r: Row, category: string): Row
    requires r.labels.Some?
  {
    r.(labels := Some(r.labels.value.(finalCategory := category)))
  }

  /** A masked row at position `i` is preceded by fewer masked rows than
      the table holds. */
  lemma {:induction false} MaskedCountBefore(df: seq<Row>, i: nat)
    requires i < |df|
    ensures MaskedCount(df[..i]) + (if Masked(df[i]) then 1 else 0) <= MaskedCount(df)
    decreases |df|
  {
    var init := df[..|df| - 1];
    if i < |df| - 1 {
      MaskedCountBefore(init, i);
      assert init[..i] == df[..i];
    }
  }

  /** Row `i` after the merge. */
  function RelabelRow(df: seq<Row>, predictions: seq<string>, i: nat): Row
    requires Labelled(df) && |predictions| == MaskedCount(df) && i < |df|
  {
    if Masked(df[i]) then
      MaskedCountBefore(df, i);
      WithFinal(df[i], predictions[MaskedCount(df[..i])])
    else
      WithFinal(df[i], df[i].txn.category)
  }

  /** Row `i` of the merged table, given the number `k` of masked rows
      before it, and the count one row further. */
  lemma RelabelAt(df: seq<Row>, predictions: seq<string>, i: nat, k: nat)
    requires Labelled(df) && |predictions| == MaskedCount(df) && i < |df| && k == MaskedCount(df[..i])
    ensures Masked(df[i]) ==> k < |predictions| && Relabel(df, predictions)[i] == WithFinal(df[i], predictions[k])
    ensures !Masked(df[i]) ==> Relabel(df, predictions)[i] == WithFinal(df[i], df[i].txn.category)
    ensures MaskedCount(df[..i + 1]) == k + if Masked(df[i]) then 1 else 0
  {
    MaskedCountStep(df, i);
    assert Relabel(df, predictions)[i] == RelabelRow(df, predictions, i);
  }

  lemma MaskedCountStep(df: seq<Row>, i: nat)
    requires i < |df|
    ensures MaskedCount(df[..i + 1]) == MaskedCount(df[..i]) + if Masked(df[i]) then 1 else 0
  {
    assert df[..i + 1][..i] == df[..i];
  }

  /** The table after `classify_other_operations`: the masked rows take the
      predictions in row order, the others their bank category; nothing but
      the final category changes. */
  function Relabel(df: seq<Row>, predictions: seq<string>): (r: seq<Row>)
    requires Labelled(df) && |predictions| == MaskedCount(df)
    ensures |r| == |df| && Labelled(r)
    ensures forall i :: 0 <= i < |df| ==>
      r[i].txn == df[i].txn && r[i].anomaly == df[i].anomaly &&
      r[i].labels.value.(finalCategory := "") == df[i].labels.value.(finalCategory := "")
    ensures forall i :: 0 <= i < |df| && Masked(df[i]) ==>
      MaskedCount(df[..i]) < |predictions| && FinalCategory(r[i]) == predictions[MaskedCount(df[..i])]
    ensures forall i :: 0 <= i < |df| && !Masked(df[i]) ==> FinalCategory(r[i]) == df[i].txn.category
    ensures forall i :: 0 <= i < |df| ==> r[i] == RelabelRow(df, predictions, i)
  {
    var r := seq(|df|, i requires 0 <= i < |df| => RelabelRow(df, predictions, i));
    forall i | 0 <= i < |df| && Masked(df[i])
      ensures MaskedCount(df[..i]) < |predictions|
    {
      MaskedCountBefore(df, i);
    }
    r
  }

  /** The final categories of the masked rows, in row order. */
  function MaskedFinals(df: seq<Row>): (r: seq<string>)
    requires Labelled(df)
    ensures |r| == MaskedCount(df)
  {
    if df == [] then []
    else
      var last := df[|df| - 1];
      MaskedFinals(df[..|df| - 1]) + (if Masked(last) then [FinalCategory(last)] else [])
  }

  /** The masked rows' final categories, read in row order, are exactly
      the predictions: each masked row receives the prediction made for it
      and none is skipped or reused. */
  lemma MaskedRowsGetPredictionsInOrder(df: seq<Row>, predictions: seq<string>)
    requires Labelled(df) && |predictions| == MaskedCount(df)
    ensures MaskedFinals(Relabel(df, predictions)) == predictions
  {
    var r := Relabel(df, predictions);
    MaskedPrefixGetPredictions(df, r, predictions, |df|);
    assert r[..|df|] == r && df[..|df|] == df;
  }

  lemma {:induction false} MaskedPrefixGetPredictions(df: seq<Row>, r: seq<Row>, predictions: seq<string>, n: nat)
    requires |r| == |df| && Labelled(r) && n <= |df|
    requires forall i :: 0 <= i < |df| ==> r[i].txn == df[i].txn
    requires forall i :: 0 <= i < |df| && Masked(df[i]) ==>
      MaskedCount(df[..i]) < |predictions| && FinalCategory(r[i]) == predictions[MaskedCount(df[..i])]
    requires MaskedCount(df) == |predictions|
    ensures MaskedCount(df[..n]) <= |predictions|
    ensures MaskedFinals(r[..n]) == predictions[..MaskedCount(df[..n])]
  {
    if n == 0 {
      assert r[..0] == [] && df[..0] == [];
    } else {
      var m := n - 1;
      MaskedPrefixGetPredictions(df, r, predictions, m);
      MaskedCountBefore(df, m);
      MaskedPrefixStep(df, r, predictions, m);
    }
  }

  lemma MaskedPrefixStep(df: seq<Row>, r: seq<Row>, predictions: seq<string>, m: nat)
    requires |r| == |df| && Labelled(r) && m < |df| && r[m].txn == df[m].txn
    requires Masked(df[m]) ==>
      MaskedCount(df[..m]) < |predictions| && FinalCategory(r[m]) == predictions[MaskedCount(df[..m])]
    requires MaskedCount(df[..m]) + (if Masked(df[m]) then 1 else 0) <= |predictions|
    requires MaskedFinals(r[..m]) == predictions[..MaskedCount(df[..m])]
    ensures MaskedCount(df[..m + 1]) <= |predictions|
    ensures MaskedFinals(r[..m + 1]) == predictions[..MaskedCount(df[..m + 1])]
  {
    MaskedCountStep(df, m);
    MaskedFinalsStep(r, m);
    var c := MaskedCount(df[..m]);
    if Masked(df[m]) {
      assert predictions[..c + 1] == predictions[..c] + [predictions[c]];
    }
  }

  lemma MaskedFinalsStep(r: seq<Row>, i: nat)
    requires Labelled(r) && i < |r|
    ensures MaskedFinals(r[..i + 1]) == MaskedFinals(r[..i]) + if Masked(r[i]) then [FinalCategory(r[i])] else []
  {
    assert r[..i + 1][..i] == r[..i];
  }

  lemma {:induction false} MaskedCountSameCategories(a: seq<Row>, b: seq<Row>)
    requires |a| == |b|
    requires forall i :: 0 <= i < |a| ==> a[i].txn.category == b[i].txn.category
    ensures MaskedCount(a) == MaskedCount(b)
    decreases |a|
  {
    if a != [] {
      MaskedCountSameCategories(a[..|a| - 1], b[..|b| - 1]);
    }
  }

  /** Every row the bank categorised ends with its bank category, even a
      money movement the cascade had filed under financial operations. */
  lemma UnmaskedRowsGetBankCategory(df: seq<Row>, predictions: seq<string>)
    requires Labelled(df) && |predictions| == MaskedCount(df)
    ensures forall i :: 0 <= i < |df| && !Masked(df[i]) ==>
      FinalCategory(Relabel(df, predictions)[i]) == df[i].txn.category
  {
  }

  /** The mask reads the bank category only, so re-running the merge with
      the same predictions changes nothing. */
  lemma RelabelIdempotent(df: seq<Row>, predictions: seq<string>)
    requires Labelled(df) && |predictions| == MaskedCount(df)
    ensures MaskedCount(Relabel(df, predictions)) == |predictions|
    ensures Relabel(Relabel(df, predictions), predictions) == Relabel(df, predictions)
  {
    var once := Relabel(df, predictions);
    MaskedCountSameCategories(once, df);
    var twice := Relabel(once, predictions);
    forall i | 0 <= i < |df|
      ensures twice[i] == once[i]
    {
      MaskedCountSameCategories(once[..i], df[..i]);
    }
  }

  /** A row can be both a training example and a re-labelled row: the bank
      left it as "other operations" but the cascade found a category by
      MCC. */
  lemma TrainingAndMaskOverlap(t: Transaction, l: Labels)
    requires t.category == OtherOperations && l.finalCategory == "Супермаркеты"
    ensures var df := [Row(t, Some(l), None)];
      Masked(df[0]) && Example(t.description, "Супермаркеты") in TrainingSet(df)
  {
    var df := [Row(t, Some(l), None)];
    assert FinalCategory(df[0]) != OtherOperations;
  }

  /** The fitted text classifier: trained on a training set, it labels a
      description. */
  type Predictor = (seq<Example>, string) -> string

  /** `model.predict(vectorizer.transform(...))` over the masked rows: one
      prediction per masked row, in row order. */
  function MaskedPredictions(df: seq<Row>, training: seq<Example>, predict: Predictor): (r: seq<string>)
    ensures |r| == MaskedCount(df)
  {
    if df == [] then []
    else
      var last := df[|df| - 1];
      MaskedPredictions(df[..|df| - 1], training, predict) +
      (if Masked(last) then [predict(training, last.txn.description)] else [])
  }

  /** The prediction at a masked row's place in the mask is the prediction
      for that row's own description. */
  lemma {:induction false} MaskedPredictionAt(df: seq<Row>, training: seq<Example>, predict: Predictor, i: nat)
    requires i < |df| && Masked(df[i])
    ensures MaskedCount(df[..i]) < MaskedCount(df)
    ensures MaskedPredictions(df, training, predict)[MaskedCount(df[..i])] == predict(training, df[i].txn.description)
    decreases |df|
  {
    MaskedCountBefore(df, i);
    var init := df[..|df| - 1];
    if i < |df| - 1 {
      MaskedPredictionAt(init, training, predict, i);
      assert init[..i] == df[..i];
    } else {
      assert df[..i] == init;
    }
  }

  /** Each masked row ends with the classifier's prediction for its own
      description. */
  lemma MaskedRowGetsOwnPrediction(df: seq<Row>, training: seq<Example>, predict: Predictor)
    requires Labelled(df)
    ensures forall i :: 0 <= i < |df| && Masked(df[i]) ==>
      FinalCategory(Relabel(df, MaskedPredictions(df, training, predict))[i]) == predict(training, df[i].txn.description)
  {
    forall i | 0 <= i < |df| && Masked(df[i])
      ensures FinalCategory(Relabel(df, MaskedPredictions(df, training, predict))[i]) == predict(training, df[i].txn.description)
    {
      MaskedPredictionAt(df, training, predict, i);
    }
  }

  // ---------------------------------------------------------------------
  // Where scikit-learn refuses
  // ---------------------------------------------------------------------

  /** `LogisticRegression.fit` needs examples of at least two labels. */
  predicate TwoClasses(training: seq<Example>) {
    exists i, j :: 0 <= i < |training| && 0 <= j < |training| && training[i].target != training[j].target
  }

  const FitError := "ValueError: the classifier needs samples of at least 2 classes"
  const PredictError := "ValueError: found array with 0 sample(s) to predict"

  /** The training set has two labels exactly when the table has two rows
      with different final categories, neither of them the sentinel. */
  lemma TwoClassesOfRows(df: seq<Row>)
    requires Labelled(df)
    ensures TwoClasses(TrainingSet(df)) <==> TwoLabelledRows(df)
  {
    if TwoClasses(TrainingSet(df)) {
      TwoLabelsComeFromRows(df);
    }
    if TwoLabelledRows(df) {
      TwoRowsGiveTwoLabels(df);
    }
  }

  /** Two rows with different final categories, neither the sentinel. */
  ghost predicate TwoLabelledRows(df: seq<Row>)
    requires Labelled(df)
  {
    exists i, j :: 0 <= i < |df| && 0 <= j < |df| && Differ(df, i, j)
  }

  ghost predicate Differ(df: seq<Row>, i: nat, j: nat)
    requires Labelled(df) && i < |df| && j < |df|
  {
    FinalCategory(df[i]) != OtherOperations && FinalCategory(df[j]) != OtherOperations &&
    FinalCategory(df[i]) != FinalCategory(df[j])
  }

  lemma TwoLabelsComeFromRows(df: seq<Row>)
    requires Labelled(df) && TwoClasses(TrainingSet(df))
    ensures TwoLabelledRows(df)
  {
    var training := TrainingSet(df);
    var k, l :| 0 <= k < |training| && 0 <= l < |training| && training[k].target != training[l].target;
    ExampleHasRow(df, k);
    ExampleHasRow(df, l);
    var i :| 0 <= i < |df| && FinalCategory(df[i]) != OtherOperations && training[k].target == FinalCategory(df[i]);
    var j :| 0 <= j < |df| && FinalCategory(df[j]) != OtherOperations && training[l].target == FinalCategory(df[j]);
    assert Differ(df, i, j);
  }

  /** Every training example is taken from a row whose final category is
      not the sentinel, and is labelled by that category. */
  lemma ExampleHasRow(df: seq<Row>, k: nat)
    requires Labelled(df) && k < |TrainingSet(df)|
    ensures exists i :: (0 <= i < |df| && FinalCategory(df[i]) != OtherOperations &&
                         TrainingSet(df)[k].target == FinalCategory(df[i]))
  {
    var training := TrainingSet(df);
    var i :| 0 <= i < |df| && training[k] == Example(df[i].txn.description, FinalCategory(df[i]));
    assert FinalCategory(df[i]) != OtherOperations && training[k].target == FinalCategory(df[i]);
  }

  lemma TwoRowsGiveTwoLabels(df: seq<Row>)
    requires Labelled(df) && TwoLabelledRows(df)
    ensures TwoClasses(TrainingSet(df))
  {
    var training := TrainingSet(df);
    var i, j :| 0 <= i < |df| && 0 <= j < |df| && Differ(df, i, j);
    var ei, ej := Example(df[i].txn.description, FinalCategory(df[i])), Example(df[j].txn.description, FinalCategory(df[j]));
    assert ei in training && ej in training;
    var k :| 0 <= k < |training| && training[k] == ei;
    var l :| 0 <= l < |training| && training[l] == ej;
    assert training[k].target != training[l].target;
  }

  /** No row is masked exactly when the mask counts none. */
  lemma {:induction false} NoMaskedRows(df: seq<Row>)
    ensures MaskedCount(df) == 0 <==> forall i :: 0 <= i < |df| ==> !Masked(df[i])
    decreases |df|
  {
    if df != [] {
      var init := df[..|df| - 1];
      NoMaskedRows(init);
      assert forall i :: 0 <= i < |init| ==> init[i] == df[i];
    }
  }

  /** What `run` leaves: an error where scikit-learn raises (fitting on
      fewer than two labels, predicting for no row), otherwise the
      relabelled table. */
  function Reclassify(df: seq<Row>, predict: Predictor): (r: Result<seq<Row>>)
    requires Labelled(df)
    ensures r.Err? <==> !TwoClasses(TrainingSet(df)) || forall i :: 0 <= i < |df| ==> !Masked(df[i])
    ensures r.Ok? ==> |r.value| == |df| && Labelled(r.value)
    ensures r.Ok? ==> forall i :: 0 <= i < |df| ==> r.value[i].txn == df[i].txn && r.value[i].anomaly == df[i].anomaly
    ensures r.Ok? ==> forall i :: 0 <= i < |df| && Masked(df[i]) ==>
      FinalCategory(r.value[i]) == predict(TrainingSet(df), df[i].txn.description)
    ensures r.Ok? ==> forall i :: 0 <= i < |df| && !Masked(df[i]) ==>
      FinalCategory(r.value[i]) == df[i].txn.category
  {
    var training := TrainingSet(df);
    NoMaskedRows(df);
    MaskedRowGetsOwnPrediction(df, training, predict);
    if !TwoClasses(training) then Err(FitError)
    else if MaskedCount(df) == 0 then Err(PredictError)
    else Ok(Relabel(df, MaskedPredictions(df, training, predict)))
  }

  class ClassificationOtherOperation {
    var df: seq<Row>

    constructor(df: seq<Row>)
      ensures this.df == df
    {
      this.df := df;
    }

    /** `train_category_model`: the training set, or the error `fit`
        raises on fewer than two labels. */
    method TrainCategoryModel() returns (training: Result<seq<Example>>)
      requires Labelled(df)
      ensures training.Ok? <==> TwoClasses(TrainingSet(df))
      ensures training.Ok? ==> training.value == TrainingSet(df)
      ensures training.Err? ==> training.error == FitError
    {
      var examples := TrainingSet(df);
      if !TwoClasses(examples) {
        return Err(FitError);
      }
      return Ok(examples);
    }

    /** `classify_other_operations`: predict for the masked rows, then
        overwrite `final_category` in place, the masked rows from the
        predictions in order, the others from their bank category. With no
        masked row `predict` raises and the table is left as it was. */
    method ClassifyOtherOperations(training: seq<Example>, predict: Predictor) returns (r: Result<seq<Row>>)
      requires Labelled(df)
      modifies this
      ensures r.Err? <==> MaskedCount(old(df)) == 0
      ensures r.Err? ==> df == old(df) && r.error == PredictError
      ensures r.Ok? ==> df == Relabel(old(df), MaskedPredictions(old(df), training, predict)) && r.value == df
    {
      var rows := df;
      if MaskedCount(rows) == 0 {
        return Err(PredictError);
      }
      var predictions := MaskedPredictions(rows, training, predict);
      ghost var merged := Relabel(rows, predictions);
      var updated := rows;
      var k := 0;
      for i := 0 to |rows|
        invariant |updated| == |rows|
        invariant k == MaskedCount(rows[..i])
        invariant forall j :: 0 <= j < i ==> updated[j] == merged[j]
        invariant forall j :: i <= j < |rows| ==> updated[j] == rows[j]
      {
        RelabelAt(rows, predictions, i, k);
        var row := updated[i];
        if Masked(row) {
          updated := updated[i := WithFinal(row, predictions[k])];
          k := k + 1;
        } else {
          updated := updated[i := WithFinal(row, row.txn.category)];
        }
      }
      df := updated;
      r := Ok(df);
    }

    /** `run`: fit the classifier on the training set, then merge its
        predictions for the masked rows; either step may raise. */
    method Run(predict: Predictor) returns (result: Result<seq<Row>>)
      requires Labelled(df)
      modifies this
      ensures result == Reclassify(old(df), predict)
      ensures df == if result.Ok? then result.value else old(df)
    {
      NoMaskedRows(df);
      var training := TrainCategoryModel();
      if training.Err? {
        return Err(training.error);
      }
      result := ClassifyOtherOperations(training.value, predict);
    }
  }
}
