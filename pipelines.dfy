/**
 * The two pipelines that chain the stages: `FinancialIntelligencePipeline`
 * (a list of five pages) and `AnalyzerPipeline` (one text). Both run the
 * same stages in the same order: load the statement, categorize, relabel
 * the uncategorised rows, find the recurring payments, flag the anomalies,
 * build the behaviour profile and its advice, estimate the savings, format
 * the report. What the learned models answer comes in as `Models`.
 */
module Pipelines {
  import opened Common
  import opened Table
  import opened Loader
  import opened Categorization
  import opened OtherOperations
  import opened Recurring
  import opened Anomalies
  import opened Behavior
  import opened Savings
  import opened Report

  /** The fitted models and the lookups the stages consult: the category
      classifier (keywords, prototype labels, MCC table), the sentence
      embedding, the text classifier, the isolation forest on amounts, and
      the forest on the monthly pivot, which tells for the table it is
      given which months are abnormal. */
  datatype Models = Models(
    classifier: Classifier,
    similarity: Similarity,
    predict: Predictor,
    outliers: Outliers,
    abnormalMonths: seq<Row> -> int -> bool)

  /** The embedding gives one similarity per prototype label. */
  ghost predicate Consistent(m: Models) {
    |m.classifier.labels| > 0 && Embeds(m.similarity, m.classifier)
  }

  /** The sheet as read from the file: every row has as many cells as the
      first. */
  ghost predicate Sheet(raw: seq<seq<string>>) {
    forall i :: 0 <= i < |raw| ==> |raw[i]| == |raw[0]|
  }

  /** The loaded transactions as a table without derived columns. */
  function LoadedRows(txns: seq<Transaction>): (df: seq<Row>)
    ensures |df| == |txns|
    ensures forall i :: 0 <= i < |txns| ==> df[i] == Loaded(txns[i])
  {
    seq(|txns|, i requires 0 <= i < |txns| => Loaded(txns[i]))
  }

  /** The table after the categorizer. */
  function Categorized(txns: seq<Transaction>, models: Models): (df: seq<Row>)
    requires Consistent(models)
    ensures |df| == |txns| && Labelled(df)
    ensures forall i :: 0 <= i < |txns| ==> df[i].txn == txns[i] && df[i].anomaly.None?
  {
    var df0 := LoadedRows(txns);
    Categorize(df0, models.classifier, SimilarityMatrix(df0, models.similarity))
  }

  /** The table after the two labelling stages: the categorizer's derived
      columns, then the text classifier's labels for the rows left
      uncategorised; the classifier may refuse. */
  function Prepared(txns: seq<Transaction>, models: Models): (r: Result<seq<Row>>)
    requires Consistent(models)
    ensures r.Ok? ==> |r.value| == |txns| && Labelled(r.value)
    ensures r.Ok? ==> forall i :: 0 <= i < |txns| ==> r.value[i].txn == txns[i] && r.value[i].anomaly.None?
  {
    Reclassify(Categorized(txns, models), models.predict)
  }

  /** The labelling stages fail exactly when no transaction was left by the
      bank as "other operations", or when the categorized table offers
      fewer than two labels to learn from. */
  lemma PreparedFails(txns: seq<Transaction>, models: Models)
    requires Consistent(models)
    ensures Prepared(txns, models).Err? <==>
      (forall i :: 0 <= i < |txns| ==> txns[i].category != Categorization.OtherOperations) ||
      !TwoLabelledRows(Categorized(txns, models))
  {
    var df := Categorized(txns, models);
    var r := Reclassify(df, models.predict);
    assert Prepared(txns, models) == r;
    TwoClassesOfRows(df);
    assert (forall i :: 0 <= i < |df| ==> !Masked(df[i])) <==>
      (forall i :: 0 <= i < |txns| ==> txns[i].category != Categorization.OtherOperations) by {
      forall i | 0 <= i < |txns|
        ensures Masked(df[i]) <==> txns[i].category == Categorization.OtherOperations
      {
        assert df[i].txn == txns[i];
      }
    }
  }

  /** The stages after loading, in the pipelines' order. The recurring
      payments are searched before the anomaly column exists; the profile
      is built from the table that has it. */
  function Analysis(txns: seq<Transaction>, models: Models, recurring: Settings): (r: Result<Findings>)
    requires Consistent(models)
    ensures r.Err? <==> Prepared(txns, models).Err? || NoRealExpense(Prepared(txns, models).value)
    ensures Prepared(txns, models).Err? ==> r == Err(Prepared(txns, models).error)
    ensures Prepared(txns, models).Ok? && NoRealExpense(Prepared(txns, models).value) ==> r == Err(NoExpenseError)
    ensures r.Ok? ==> Labelled(r.value.df)
  {
    match Prepared(txns, models)
    case Err(e) => Err(e)
    case Ok(df2) =>
      match DetectRecurringPayments(df2, recurring)
      case Err(e) => Err(e)
      case Ok(groups) =>
        var df3 := WithAnomalies(df2, models.outliers);
        var profile := Pivot(df3, models.abnormalMonths(df3));
        Ok(Findings(df3, groups, AnomalousRows(df3), SavingsOf(profile, groups), Explain(profile)))
  }

  /** A statement without a debit never reaches the report: the recurring
      stage finds no real expense to key, whatever the classifiers say. */
  lemma IncomeOnlyStatementFails(txns: seq<Transaction>, models: Models, recurring: Settings)
    requires Consistent(models)
    requires forall i :: 0 <= i < |txns| ==> txns[i].amount >= 0.0
    ensures Analysis(txns, models, recurring).Err?
  {
    var prepared := Prepared(txns, models);
    if prepared.Ok? {
      var df := prepared.value;
      assert forall i :: 0 <= i < |df| ==> df[i].txn.amount >= 0.0 by {
        assert forall i :: 0 <= i < |df| ==> df[i].txn == txns[i];
      }
      CreditsAreNoExpense(df);
    }
  }

  /** `run` up to the report: a loading error or a refusal of the text
      classifier stops the pipeline. */
  function Analyze(raw: seq<seq<string>>, parsers: Parsers, models: Models, recurring: Settings): (r: Result<Findings>)
    requires Sheet(raw) && Consistent(models)
    ensures r.Err? <==>
      (Load(raw, parsers).Err? || Prepared(Load(raw, parsers).value, models).Err? ||
       NoRealExpense(Prepared(Load(raw, parsers).value, models).value))
    ensures Load(raw, parsers).Err? ==> r == Err(Load(raw, parsers).error)
    ensures Load(raw, parsers).Ok? && Prepared(Load(raw, parsers).value, models).Err? ==>
      r == Err(Prepared(Load(raw, parsers).value, models).error)
    ensures (Load(raw, parsers).Ok? && Prepared(Load(raw, parsers).value, models).Ok? &&
             NoRealExpense(Prepared(Load(raw, parsers).value, models).value)) ==> r == Err(NoExpenseError)
    ensures r.Ok? ==> Labelled(r.value.df) && |r.value.df| == |Load(raw, parsers).value|
  {
    match Load(raw, parsers)
    case Err(e) => Err(e)
    case Ok(txns) => Analysis(txns, models, recurring)
  }

  /** What `FinancialIntelligencePipeline.run` returns. */
  function FinancialIntelligenceReport(raw: seq<seq<string>>, parsers: Parsers, models: Models,
                                       show: int -> string, fmt: Formatter): Result<seq<string>>
    requires Sheet(raw) && Consistent(models)
  {
    match Analyze(raw, parsers, models, Settings(show, FinancialIntelligenceLimit))
    case Err(e) => Err(e)
    case Ok(f) => Ok(Pages(f, PagesStyle, fmt))
  }

  /** What `AnalyzerPipeline.run` returns. */
  function AnalyzerReport(raw: seq<seq<string>>, parsers: Parsers, models: Models,
                          show: int -> string, fmt: Formatter): Result<string>
    requires Sheet(raw) && Consistent(models)
  {
    match Analyze(raw, parsers, models, Settings(show, BankStatementLimit))
    case Err(e) => Err(e)
    case Ok(f) => Ok(Text(f, TextStyle, fmt))
  }

  // ---------------------------------------------------------------------
  // Properties
  // ---------------------------------------------------------------------

  /** The final table holds the loaded transactions, none added, dropped
      or reordered, each with its derived columns and its anomaly flag. */
  lemma AnalysisKeepsTransactions(txns: seq<Transaction>, models: Models, recurring: Settings)
    requires Consistent(models)
    ensures Analysis(txns, models, recurring).Ok? ==>
      var df := Analysis(txns, models, recurring).value.df;
      |df| == |txns| &&
      forall i :: 0 <= i < |txns| ==> df[i].txn == txns[i] && df[i].labels.Some? && df[i].anomaly.Some?
  {
  }

  /** The recurring payments do not depend on the anomaly column: searching
      the final table gives the groups the pipeline found before the
      anomaly stage ran. */
  lemma RecurringIgnoresAnomalyStage(txns: seq<Transaction>, models: Models, recurring: Settings)
    requires Consistent(models)
    ensures Analysis(txns, models, recurring).Ok? ==>
      var f := Analysis(txns, models, recurring).value;
      DetectRecurringPayments(f.df, recurring) == Ok(f.recurringGroups)
  {
    if Prepared(txns, models).Ok? {
      var df2 := Prepared(txns, models).value;
      var df3 := WithAnomalies(df2, models.outliers);
      DetectionIgnoresOtherColumns(df2, df3, recurring);
    }
  }

  /** The amounts as loaded. */
  function Amounts(txns: seq<Transaction>): (r: seq<real>)
    ensures |r| == |txns| && forall i :: 0 <= i < |txns| ==> r[i] == txns[i].amount
  {
    seq(|txns|, i requires 0 <= i < |txns| => txns[i].amount)
  }

  /** The listed anomalies are the rows of the final table that the forest
      isolates among the loaded amounts: the forest sees the amounts as
      they were loaded, since no stage before it changes them. */
  lemma AnomaliesOfLoadedAmounts(txns: seq<Transaction>, models: Models, recurring: Settings)
    requires Consistent(models)
    ensures Analysis(txns, models, recurring).Ok? ==>
      var f := Analysis(txns, models, recurring).value;
      (forall row :: row in f.anomalies ==> row in f.df) &&
      forall i :: 0 <= i < |f.df| ==> (f.df[i] in f.anomalies <==> models.outliers(Amounts(txns), i))
  {
    if Prepared(txns, models).Ok? {
      var df2 := Prepared(txns, models).value;
      AnomaliesAreTheOutliers(df2, models.outliers);
      assert Anomalies.AmountColumn(df2) == Amounts(txns);
    }
  }

  /** The blocks of the text one after the other are its five sections
      flattened. */
  lemma FlattenFive<T>(a: seq<T>, b: seq<T>, c: seq<T>, d: seq<T>, e: seq<T>)
    ensures Flatten([a, b, c, d, e]) == a + b + c + d + e
  {
    var s1, s2, s3, s4, s5 := [a], [a, b], [a, b, c], [a, b, c, d], [a, b, c, d, e];
    assert s1[..0] == [] && s2[..1] == s1 && s3[..2] == s2 && s4[..3] == s3 && s5[..4] == s4;
    assert Flatten(s1) == a;
    assert Flatten(s2) == a + b;
    assert Flatten(s3) == a + b + c;
    assert Flatten(s4) == a + b + c + d;
  }

  /** Five pages appended one by one make the list of the five. */
  lemma AppendFive<T>(a: T, b: T, c: T, d: T, e: T)
    ensures [a] + [b] + [c] + [d] + [e] == [a, b, c, d, e]
  {
  }

  /** The pages are the five blocks, each joined by newlines. */
  lemma PagesAreJoinedBlocks(f: Findings, style: Style, fmt: Formatter)
    requires Labelled(f.df) && FiveSections(style)
    ensures Pages(f, style, fmt) == [
      JoinLines(SpendingBlock(f.df, style, fmt)),
      JoinLines(RecurringBlock(f.recurringGroups, style, fmt)),
      JoinLines(AnomalyBlock(f.anomalies, style, fmt)),
      JoinLines(AdviceBlock(f.advice, style, fmt)),
      JoinLines([style.headers[4], SavingsLine(f.savings, fmt)])]
  {
    LinesOfFive(SpendingBlock(f.df, style, fmt), RecurringBlock(f.recurringGroups, style, fmt),
      AnomalyBlock(f.anomalies, style, fmt), AdviceBlock(f.advice, style, fmt),
      SavingsBlock(f.savings, style, fmt), JoinLines);
  }

  lemma LinesOfFive<T>(a: T, b: T, c: T, d: T, e: T, line: T -> string)
    ensures Lines([a, b, c, d, e], line) == [line(a), line(b), line(c), line(d), line(e)]
  {
  }

  /** The text is the five blocks one after the other, joined by
      newlines. */
  lemma TextIsJoinedBlocks(f: Findings, style: Style, fmt: Formatter)
    requires Labelled(f.df) && FiveSections(style)
    ensures Text(f, style, fmt) == Join(
      SpendingBlock(f.df, style, fmt) + RecurringBlock(f.recurringGroups, style, fmt) +
      AnomalyBlock(f.anomalies, style, fmt) + AdviceBlock(f.advice, style, fmt) +
      [style.headers[4], SavingsLine(f.savings, fmt)], "\n")
  {
    SectionTitles(f, style, fmt);
    FlattenFive(SpendingBlock(f.df, style, fmt), RecurringBlock(f.recurringGroups, style, fmt),
      AnomalyBlock(f.anomalies, style, fmt), AdviceBlock(f.advice, style, fmt),
      [style.headers[4], SavingsLine(f.savings, fmt)]);
  }

  // ---------------------------------------------------------------------
  // The pipeline objects
  // ---------------------------------------------------------------------

  /** `FinancialIntelligencePipeline`: the statement's cells and the stage
      objects, created one by one as `run` reaches them. */
  class FinancialIntelligencePipeline {
    const content: seq<seq<string>>
    var smartCategory: TransactionCategorizer?
    var classificationOtherOperation: ClassificationOtherOperation?
    var searchForRegularExpenses: RecurringPaymentDetector?
    var anomaliesSpending: AnomaliesSpendingAnalyzer?
    var buildUserProfile: UserBehaviorModel?
    var estimationSavings: EstimateSavings?

    constructor(content: seq<seq<string>>)
      ensures this.content == content
      ensures smartCategory == null && classificationOtherOperation == null
      ensures searchForRegularExpenses == null && anomaliesSpending == null
      ensures buildUserProfile == null && estimationSavings == null
    {
      this.content := content;
      smartCategory := null;
      classificationOtherOperation := null;
      searchForRegularExpenses := null;
      anomaliesSpending := null;
      buildUserProfile := null;
      estimationSavings := null;
    }

    /** `run`: load the statement, run the stages, format the report. */
    method Run(parsers: Parsers, models: Models, show: int -> string, fmt: Formatter) returns (report: Result<seq<string>>)
      requires Sheet(content) && Consistent(models)
      modifies this
      ensures report == FinancialIntelligenceReport(content, parsers, models, show, fmt)
    {
      var loaded := LoadStatement(content, parsers);
      if loaded.Err? {
        return Err(loaded.error);
      }
      var findings := RunStages(loaded.value, models, Settings(show, FinancialIntelligenceLimit));
      if findings.Err? {
        return Err(findings.error);
      }
      var pages := FormatUserReport(findings.value, fmt);
      report := Ok(pages);
    }

    /** The two labelling stages, each on the table the previous one
        returned. */
    method LabelRows(txns: seq<Transaction>, models: Models) returns (df: Result<seq<Row>>)
      requires Consistent(models)
      modifies this
      ensures df == Prepared(txns, models)
    {
      var rows := LoadedRows(txns);
      var categorizer := new TransactionCategorizer(rows);
      smartCategory := categorizer;
      rows := categorizer.Run(models.classifier, models.similarity);
      var reclassifier := new ClassificationOtherOperation(rows);
      classificationOtherOperation := reclassifier;
      df := reclassifier.Run(models.predict);
    }

    /** The stages after loading, each object created as `run` reaches it. */
    method RunStages(txns: seq<Transaction>, models: Models, recurring: Settings) returns (f: Result<Findings>)
      requires Consistent(models)
      modifies this
      ensures f == Analysis(txns, models, recurring)
    {
      var labelled := LabelRows(txns, models);
      if labelled.Err? {
        return Err(labelled.error);
      }
      var df := labelled.value;
      var detected := FindRecurring(df, recurring);
      if detected.Err? {
        return Err(detected.error);
      }
      var groups := detected.value;
      df := FlagAnomalies(df, models.outliers);
      var anomalies := AnomalousRows(df);
      var profile, advice := BuildProfile(df, models.abnormalMonths(df));
      var savings := EstimateSavingsOf(groups, profile);
      f := Ok(Findings(df, groups, anomalies, savings, advice));
    }

    /** The recurring-payment stage. */
    method FindRecurring(df: seq<Row>, recurring: Settings) returns (groups: Result<seq<Group>>)
      requires Labelled(df)
      modifies this
      ensures groups == DetectRecurringPayments(df, recurring)
    {
      var detector := new RecurringPaymentDetector(df);
      searchForRegularExpenses := detector;
      groups := detector.Run(recurring);
    }

    /** The anomaly stage. */
    method FlagAnomalies(df: seq<Row>, outliers: Outliers) returns (flagged: seq<Row>)
      modifies this
      ensures flagged == WithAnomalies(df, outliers)
    {
      var analyzer := new AnomaliesSpendingAnalyzer(df);
      anomaliesSpending := analyzer;
      flagged := analyzer.Run(outliers);
    }

    /** The behaviour stage. */
    method BuildProfile(df: seq<Row>, isAbnormal: int -> bool) returns (profile: Profile, advice: seq<Advice>)
      requires Labelled(df)
      modifies this
      ensures profile == Pivot(df, isAbnormal) && advice == Explain(profile)
    {
      var behavior := new UserBehaviorModel(df);
      buildUserProfile := behavior;
      profile, advice := behavior.Build(isAbnormal);
    }

    /** The savings stage. */
    method EstimateSavingsOf(groups: seq<Group>, profile: Profile) returns (savings: real)
      requires WellFormed(profile)
      modifies this
      ensures savings == SavingsOf(profile, groups)
    {
      var estimator := new EstimateSavings(groups, profile);
      estimationSavings := estimator;
      savings := estimator.Estimate();
    }

    /** `_format_user_report`: each section's lines joined into a page. */
    method FormatUserReport(f: Findings, fmt: Formatter) returns (pages: seq<string>)
      requires Labelled(f.df)
      ensures pages == Pages(f, PagesStyle, fmt)
    {
      var spending := WriteSpending(f.df, PagesStyle, fmt);
      pages := [JoinLines(spending)];
      var recurring := WriteRecurring(f.recurringGroups, PagesStyle, fmt);
      pages := pages + [JoinLines(recurring)];
      var anomalies := WriteAnomalies(f.anomalies, PagesStyle, fmt);
      pages := pages + [JoinLines(anomalies)];
      var advice := WriteAdvice(f.advice, PagesStyle, fmt);
      pages := pages + [JoinLines(advice)];
      var savings := [PagesStyle.headers[4], SavingsLine(f.savings, fmt)];
      pages := pages + [JoinLines(savings)];
      AppendFive(JoinLines(spending), JoinLines(recurring), JoinLines(anomalies), JoinLines(advice), JoinLines(savings));
      PagesAreJoinedBlocks(f, PagesStyle, fmt);
    }
  }

  /** `AnalyzerPipeline`: the same stages, reported as one text. */
  class AnalyzerPipeline {
    const content: seq<seq<string>>
    var smartCategory: TransactionCategorizer?
    var classificationOtherOperation: ClassificationOtherOperation?
    var searchForRegularExpenses: RecurringPaymentDetector?
    var anomaliesSpending: AnomaliesSpendingAnalyzer?
    var buildUserProfile: UserBehaviorModel?
    var estimationSavings: EstimateSavings?

    constructor(content: seq<seq<string>>)
      ensures this.content == content
      ensures smartCategory == null && classificationOtherOperation == null
      ensures searchForRegularExpenses == null && anomaliesSpending == null
      ensures buildUserProfile == null && estimationSavings == null
    {
      this.content := content;
      smartCategory := null;
      classificationOtherOperation := null;
      searchForRegularExpenses := null;
      anomaliesSpending := null;
      buildUserProfile := null;
      estimationSavings := null;
    }

    /** `run`: load the statement, run the stages, format the report. */
    method Run(parsers: Parsers, models: Models, show: int -> string, fmt: Formatter) returns (report: Result<string>)
      requires Sheet(content) && Consistent(models)
      modifies this
      ensures report == AnalyzerReport(content, parsers, models, show, fmt)
    {
      var loaded := LoadStatement(content, parsers);
      if loaded.Err? {
        return Err(loaded.error);
      }
      var findings := RunStages(loaded.value, models, Settings(show, BankStatementLimit));
      if findings.Err? {
        return Err(findings.error);
      }
      var text := FormatUserReport(findings.value, fmt);
      report := Ok(text);
    }

    /** The two labelling stages, each on the table the previous one
        returned. */
    method LabelRows(txns: seq<Transaction>, models: Models) returns (df: Result<seq<Row>>)
      requires Consistent(models)
      modifies this
      ensures df == Prepared(txns, models)
    {
      var rows := LoadedRows(txns);
      var categorizer := new TransactionCategorizer(rows);
      smartCategory := categorizer;
      rows := categorizer.Run(models.classifier, models.similarity);
      var reclassifier := new ClassificationOtherOperation(rows);
      classificationOtherOperation := reclassifier;
      df := reclassifier.Run(models.predict);
    }

    /** The stages after loading, each object created as `run` reaches it. */
    method RunStages(txns: seq<Transaction>, models: Models, recurring: Settings) returns (f: Result<Findings>)
      requires Consistent(models)
      modifies this
      ensures f == Analysis(txns, models, recurring)
    {
      var labelled := LabelRows(txns, models);
      if labelled.Err? {
        return Err(labelled.error);
      }
      var df := labelled.value;
      var detected := FindRecurring(df, recurring);
      if detected.Err? {
        return Err(detected.error);
      }
      var groups := detected.value;
      df := FlagAnomalies(df, models.outliers);
      var anomalies := AnomalousRows(df);
      var profile, advice := BuildProfile(df, models.abnormalMonths(df));
      var savings := EstimateSavingsOf(groups, profile);
      f := Ok(Findings(df, groups, anomalies, savings, advice));
    }

    /** The recurring-payment stage. */
    method FindRecurring(df: seq<Row>, recurring: Settings) returns (groups: Result<seq<Group>>)
      requires Labelled(df)
      modifies this
      ensures groups == DetectRecurringPayments(df, recurring)
    {
      var detector := new RecurringPaymentDetector(df);
      searchForRegularExpenses := detector;
      groups := detector.Run(recurring);
    }

    /** The anomaly stage. */
    method FlagAnomalies(df: seq<Row>, outliers: Outliers) returns (flagged: seq<Row>)
      modifies this
      ensures flagged == WithAnomalies(df, outliers)
    {
      var analyzer := new AnomaliesSpendingAnalyzer(df);
      anomaliesSpending := analyzer;
      flagged := analyzer.Run(outliers);
    }

    /** The behaviour stage. */
    method BuildProfile(df: seq<Row>, isAbnormal: int -> bool) returns (profile: Profile, advice: seq<Advice>)
      requires Labelled(df)
      modifies this
      ensures profile == Pivot(df, isAbnormal) && advice == Explain(profile)
    {
      var behavior := new UserBehaviorModel(df);
      buildUserProfile := behavior;
      profile, advice := behavior.Build(isAbnormal);
    }

    /** The savings stage. */
    method EstimateSavingsOf(groups: seq<Group>, profile: Profile) returns (savings: real)
      requires WellFormed(profile)
      modifies this
      ensures savings == SavingsOf(profile, groups)
    {
      var estimator := new EstimateSavings(groups, profile);
      estimationSavings := estimator;
      savings := estimator.Estimate();
    }

    /** `_format_user_report`: all lines of all sections, joined by
        newlines. */
    method FormatUserReport(f: Findings, fmt: Formatter) returns (text: string)
      requires Labelled(f.df)
      ensures text == Text(f, TextStyle, fmt)
    {
      var spending := WriteSpending(f.df, TextStyle, fmt);
      var lines := spending;
      var recurring := WriteRecurring(f.recurringGroups, TextStyle, fmt);
      lines := lines + recurring;
      var anomalies := WriteAnomalies(f.anomalies, TextStyle, fmt);
      lines := lines + anomalies;
      var advice := WriteAdvice(f.advice, TextStyle, fmt);
      lines := lines + advice;
      var savings := [TextStyle.headers[4], SavingsLine(f.savings, fmt)];
      lines := lines + savings;
      TextIsJoinedBlocks(f, TextStyle, fmt);
      text := Join(lines, "\n");
    }
  }
}
