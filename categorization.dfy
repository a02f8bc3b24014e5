/**
 * The categorisation cascade (`TransactionCategorizer`, and its twin
 * `SmartCategory`): every transaction gets a money-movement flag, a
 * category by MCC, a semantic label, and a final category chosen by a
 * strict four-level priority.
 *
 * The sentence-embedding model is not part of this model: the cosine
 * similarities of each description to the category prototypes come in as
 * a matrix, one row per transaction and one column per prototype label.
 * `FINANCE_KEYWORDS` and `MCCHelper.classify_by_mcc` are parameters.
 */
module Categorization {
  import opened Common
  import opened Table

  /** The category every money movement ends up with. */
  const FinancialOperations: string := "Финансовые операции"

  /** The bank's "no category" sentinel. */
  const OtherOperations: string := "Прочие операции"

  /** `is_money_movement`: some finance keyword occurs in the lower-cased
      description. */
  predicate IsMoneyMovement(description: string, keywords: seq<string>) {
    exists k :: 0 <= k < |keywords| && Contains(Lower(description), keywords[k])
  }

  lemma LowerIdempotent(s: string)
    ensures Lower(Lower(s)) == Lower(s)
  {
    forall i | 0 <= i < |s|
      ensures Lower(Lower(s))[i] == Lower(s)[i]
    {
      LowerCharIdempotent(s[i]);
    }
  }

  /** The test ignores the case of the description. */
  lemma MoneyMovementIgnoresCase(description: string, keywords: seq<string>)
    ensures IsMoneyMovement(Lower(description), keywords) <==> IsMoneyMovement(description, keywords)
  {
    LowerIdempotent(description);
  }

  /** Index `i` holds the largest similarity and no earlier index does. */
  ghost predicate FirstBest(similarities: seq<real>, i: int) {
    0 <= i < |similarities| &&
    (forall j :: 0 <= j < |similarities| ==> similarities[j] <= similarities[i]) &&
    (forall j :: 0 <= j < i ==> similarities[j] < similarities[i])
  }

  /** `_semantic_classify` for one row: the label of the most similar
      prototype, the first one on ties, and that similarity as the score. */
  function SemanticChoice(similarities: seq<real>, labels: seq<string>): (r: (string, real))
    requires |similarities| == |labels| > 0
    ensures exists i :: FirstBest(similarities, i) && r.0 == labels[i] && r.1 == similarities[i]
  {
    var i := ArgMax(similarities);
    (labels[i], similarities[i])
  }

  /** The `np.where` cascade: money movement first, then a real bank
      category, then the MCC category, then the semantic label. */
  function Cascade(isMoney: bool, category: string, mccCategory: Option<string>, semantic: string): string {
    if isMoney then FinancialOperations
    else if category != OtherOperations then category
    else if mccCategory.Some? then mccCategory.value
    else semantic
  }

  /** The inputs the stage reads besides the table. */
  datatype Classifier = Classifier(
    keywords: seq<string>,
    labels: seq<string>,
    classifyByMcc: Option<int> -> Option<string>)

  ghost predicate Fits(df: seq<Row>, c: Classifier, similarities: seq<seq<real>>) {
    |c.labels| > 0 && |similarities| == |df| &&
    forall i :: 0 <= i < |similarities| ==> |similarities[i]| == |c.labels|
  }

  /** The five derived columns of one row, computed from its transaction. */
  function LabelsOf(t: Transaction, c: Classifier, similarities: seq<real>): Labels
    requires |similarities| == |c.labels| > 0
  {
    var isMoney := IsMoneyMovement(t.description, c.keywords);
    var mccCategory := c.classifyByMcc(t.mcc);
    var (semantic, score) := SemanticChoice(similarities, c.labels);
    Labels(isMoney, mccCategory, semantic, score, Cascade(isMoney, t.category, mccCategory, semantic))
  }

  /** The table after `smart_category`. */
  function Categorize(df: seq<Row>, c: Classifier, similarities: seq<seq<real>>): (r: seq<Row>)
    requires Fits(df, c, similarities)
    ensures |r| == |df| && Labelled(r)
    ensures forall i :: 0 <= i < |df| ==> r[i].txn == df[i].txn && r[i].anomaly == df[i].anomaly
  {
    seq(|df|, i requires 0 <= i < |df| =>
      Row(df[i].txn, Some(LabelsOf(df[i].txn, c, similarities[i])), df[i].anomaly))
  }

  /** The cosine similarities of a description's embedding to the
      prototype labels, one per label. */
  type Similarity = string -> seq<real>

  ghost predicate Embeds(similarity: Similarity, c: Classifier) {
    forall d :: |similarity(d)| == |c.labels|
  }

  /** One row of similarities per transaction. */
  function SimilarityMatrix(df: seq<Row>, similarity: Similarity): (r: seq<seq<real>>)
    ensures |r| == |df| && forall i :: 0 <= i < |df| ==> r[i] == similarity(df[i].txn.description)
  {
    seq(|df|, i requires 0 <= i < |df| => similarity(df[i].txn.description))
  }

  class TransactionCategorizer {
    var df: seq<Row>

    constructor(df: seq<Row>)
      ensures this.df == df
    {
      this.df := df;
    }

    /** Writes the derived columns of every row in place. */
    method SmartCategory(c: Classifier, similarities: seq<seq<real>>)
      requires Fits(df, c, similarities)
      modifies this
      ensures df == Categorize(old(df), c, similarities)
    {
      var updated := df;
      for i := 0 to |updated|
        invariant |updated| == |df|
        invariant forall j :: 0 <= j < i ==> updated[j] == Categorize(df, c, similarities)[j]
        invariant forall j :: i <= j < |df| ==> updated[j] == df[j]
      {
        updated := updated[i := Row(updated[i].txn, Some(LabelsOf(updated[i].txn, c, similarities[i])), updated[i].anomaly)];
      }
      df := updated;
    }

    /** `run`: the similarities of every description to the prototypes,
        then the derived columns. */
    method Run(c: Classifier, similarity: Similarity) returns (result: seq<Row>)
      requires |c.labels| > 0 && Embeds(similarity, c)
      modifies this
      ensures df == Categorize(old(df), c, SimilarityMatrix(old(df), similarity)) && result == df
    {
      var similarities := SimilarityMatrix(df, similarity);
      SmartCategory(c, similarities);
      result := df;
    }
  }

  /** Every money movement is filed under the financial-operations
      category, whatever its bank category or MCC; a non-money row keeps a
      real bank category verbatim; a non-money row the bank left
      uncategorised takes the MCC category when there is one and the
      semantic label otherwise. */
  lemma CategorizePriority(df: seq<Row>, c: Classifier, similarities: seq<seq<real>>, i: nat)
    requires Fits(df, c, similarities) && i < |df|
    ensures var r := Categorize(df, c, similarities)[i];
      var t := df[i].txn;
      var semantic := SemanticChoice(similarities[i], c.labels).0;
      (IsMoneyMovement(t.description, c.keywords) ==> FinalCategory(r) == FinancialOperations) &&
      (!IsMoneyMovement(t.description, c.keywords) && t.category != OtherOperations ==>
        FinalCategory(r) == t.category) &&
      (!IsMoneyMovement(t.description, c.keywords) && t.category == OtherOperations ==>
        FinalCategory(r) == (if c.classifyByMcc(t.mcc).Some? then c.classifyByMcc(t.mcc).value else semantic))
  {
  }

  /** The bank's own category is overridden only for money movements and
      for rows the bank left as "other operations". */
  lemma BankCategoryOverriddenOnlyWhenUncategorised(df: seq<Row>, c: Classifier, similarities: seq<seq<real>>)
    requires Fits(df, c, similarities)
    ensures forall i :: 0 <= i < |df| ==>
      FinalCategory(Categorize(df, c, similarities)[i]) != df[i].txn.category ==>
        IsMoneyMovement(df[i].txn.description, c.keywords) || df[i].txn.category == OtherOperations
  {
  }

  /** The derived columns depend on the transaction columns and the
      similarities alone, never on derived columns already present. */
  lemma CategorizeReadsTransactionsOnly(df1: seq<Row>, df2: seq<Row>, c: Classifier, similarities: seq<seq<real>>)
    requires Fits(df1, c, similarities) && Fits(df2, c, similarities)
    requires forall i :: 0 <= i < |df1| ==> df1[i].txn == df2[i].txn
    ensures forall i :: 0 <= i < |df1| ==>
      Categorize(df1, c, similarities)[i].labels == Categorize(df2, c, similarities)[i].labels
  {
  }

  /** Running the stage twice gives the table running it once gives. */
  lemma CategorizeIdempotent(df: seq<Row>, c: Classifier, similarities: seq<seq<real>>)
    requires Fits(df, c, similarities)
    ensures Fits(Categorize(df, c, similarities), c, similarities)
    ensures Categorize(Categorize(df, c, similarities), c, similarities) == Categorize(df, c, similarities)
  {
    var once := Categorize(df, c, similarities);
    var twice := Categorize(once, c, similarities);
    assert forall i :: 0 <= i < |df| ==> twice[i] == once[i];
  }
}
