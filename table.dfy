/**
 * The transaction table that the pipeline stages pass along. A pandas
 * DataFrame row becomes a `Row`: the five columns the statement loader
 * produces (`Transaction`), the five columns the categorizer writes
 * (`Labels`, absent until that stage has run) and the `anomaly` column the
 * anomaly detector writes (absent until then).
 */
module Table {
  import opened Common

  /** One parsed statement line: `date | description | amount | category | mcc`.
      A negative amount is a debit. */
  datatype Transaction = Transaction(
    date: Date,
    description: string,
    amount: real,
    category: string,
    mcc: Option<int>)

  /** The columns the categorizer adds: `is_money`, `mcc_category`,
      `semantic_category`, `semantic_score` and `final_category`. */
  datatype Labels = Labels(
    isMoney: bool,
    mccCategory: Option<string>,
    semanticCategory: string,
    semanticScore: real,
    finalCategory: string)

  datatype Row = Row(txn: Transaction, labels: Option<Labels>, anomaly: Option<bool>)

  /** A freshly loaded row: no derived column yet. */
  function Loaded(t: Transaction): Row {
    Row(t, None, None)
  }

  /** Every row carries the categorizer's columns (reading `final_category`
      or `is_money` before that stage would raise `KeyError`). */
  ghost predicate Labelled(df: seq<Row>) {
    forall i :: 0 <= i < |df| ==> df[i].labels.Some?
  }

  function FinalCategory(r: Row): string
    requires r.labels.Some?
  {
    r.labels.value.finalCategory
  }

  function IsMoney(r: Row): bool
    requires r.labels.Some?
  {
    r.labels.value.isMoney
  }
}
