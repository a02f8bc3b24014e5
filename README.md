# Expense-Advisor bank-statement analysis, modelled in Dafny

This project models the deterministic decision logic of the Expense-Advisor bank-statement pipeline. The logic comes in two twin module trees, `financial_intelligence` and `bank_statement_analyzer`. Every machine-learning step is an input to the model:

- the sentence-embedding similarities of each description;
- the text classifier's predictions;
- the per-row outlier verdicts of the isolation forest;
- the per-month abnormal flags.

A pandas table is a `seq<Row>`. Each `Row` holds the loaded transaction (`date | description | amount | category | mcc`), the five columns the categorizer adds, and the `anomaly` column. A column that a stage has not yet written is `None`.

The modules follow the pipeline:

- `Loader` (loader.dfy) finds the header row of a raw sheet with the scoring loop of `_find_header_row`. It then maps the raw column names onto the schema, defaults a missing category, and drops the rows whose date or amount fails to parse.
- `Categorization` (categorization.dfy) covers:
  - the money-movement keyword test;
  - the first-argmax semantic label;
  - the four-level `final_category` cascade of `smart_category`.

  `semantic_classifier.py` and its twin `smart_category.py` run the same code, so one model serves both.
- `OtherOperations` (other_operations.dfy) covers the training-set filter and the mask-and-overwrite merge of `classifications.py`.
- `Recurring` (recurring.dfy) covers `recurring_payment_detector.py` and its twin `search_for_regular_expenses.py`:
  - the real-expense filter;
  - the four-step description cleaning;
  - the merchant key;
  - grouping;
  - the `count >= 3` filter;
  - the `is_recurring` rule.

  `Settings.descriptionLimit` is the only difference between the twins: `None` for the first, 60 characters for the second.
- `Anomalies` (anomalies.dfy) writes the `anomaly` column from the forest's verdicts and selects the flagged rows.
- `Behavior` (behavior.dfy) covers the month × category pivot and `explain_monthly_anomalies` of `user_behavior_model.py` and its twin `build_user_profile.py`.
- `Savings` (savings.dfy) covers `_estimate_savings`.
- `Report` (report.dfy) builds the five report sections. `Style` holds what differs between the two pipelines: the section titles and the 50-character description cut of `bank_statement_analyzer/pipeline.py`.
- `Pipelines` (pipelines.dfy) has the two pipeline classes. They run the stages in their fixed order and return, respectively, a list of five pages and one joined string.
- `Files` (files.dfy) covers the extension check of `domain/file.py` and the guard shared by the two `services.py` files.
- `Common` (common.dfy) and `Table` (table.dfy) hold the shared definitions.

The model follows the shape of the code:

- Stages that write into their table become classes with a `df` field and `modifies` clauses.
- Loops become methods proved against specification functions.
- The properties the code promises are proved as lemmas about those functions.

Behaviours of the code worth noting, which the model follows:

- The reclassifier trains on the rows whose *final* category (`final_category`) is not the sentinel (classifications.py:51). It does not filter on the bank category (`category`).
- Nothing in the loader rejects a statement that is empty after coercion. The model returns the empty table.
- A table without a real expense does not yield an empty list of recurring payments. Filtering it leaves an empty frame, `apply` on that frame returns a frame, and assigning it to the single `merchant_id` column raises pandas' `ValueError` (recurring_payment_detector.py:145-147, search_for_regular_expenses.py:75-77). The `len(groups) == 0` early return is never reached for such a table, so the model fails the analysis there with that error.

Rows in the table below cite the `financial_intelligence` copy of a twin. The `bank_statement_analyzer` copy (smart_category.py, search_for_regular_expenses.py, build_user_profile.py) runs the same logic at its own line numbers (for example smart_category.py:57-69 against semantic_classifier.py:119-131, and build_user_profile.py:20 against user_behavior_model.py:47), and the same member models both copies.

## Model

| member | source | states |
|---|---|---|
| Common.Lower | src/modules/financial_intelligence/infrastructure/services/categorization/semantic_classifier.py:22 | lower-cases character by character and keeps the length; LowerCharIdempotent shows a second lower-casing changes nothing |
| Common.LowerCharIdempotent | src/modules/financial_intelligence/infrastructure/services/categorization/semantic_classifier.py:22 | lower-casing an already lower-cased character leaves it unchanged |
| Common.MonthOfIsCalendarMonth | src/modules/financial_intelligence/infrastructure/services/behavior/user_behavior_model.py:47 | two dates share a month bucket exactly when they share year and calendar month |
| Common.Variance | src/modules/financial_intelligence/infrastructure/services/behavior/recurring_payment_detector.py:197 | the population variance of the amounts (NumPy's `std` squared, `ddof=0`) is never negative |
| Common.ArgMax | src/modules/financial_intelligence/infrastructure/services/categorization/semantic_classifier.py:94 | the index holds the largest value and every earlier index holds a strictly smaller one (the first maximum wins ties) |
| Common.SortBy | src/modules/financial_intelligence/pipeline/pipeline.py:118 | the result is sorted by the key and is a permutation of the input |
| Common.Take | src/modules/financial_intelligence/pipeline/pipeline.py:150 | keeps the first `n` elements (all of them when there are fewer) as a prefix of the input |
| Common.Distinct | src/modules/financial_intelligence/infrastructure/services/behavior/recurring_payment_detector.py:187 | no duplicates, and holds exactly the values of the input |
| Common.Truncate | src/modules/bank_statement_analyzer/infrastructure/services/regular_expenses/search_for_regular_expenses.py:82 | a prefix of the text of exactly `min(len(s), n)` characters: the whole text when it is short enough, its first `n` characters otherwise |
| Common.JoinAppend | src/modules/bank_statement_analyzer/pipeline.py:132 | joining two non-empty lists of lines is joining their two joins with the separator |
| Loader.Score | src/modules/bank_statement_analyzer/infrastructure/services/loader/loader.py:55-60 | a row's score counts each required keyword at most once, so it never exceeds the number of keywords |
| Loader.ScoreRow | src/modules/bank_statement_analyzer/infrastructure/services/loader/loader.py:55-60 | the nested keyword/cell loop computes exactly the row's score |
| Loader.ScanLimit | src/modules/bank_statement_analyzer/infrastructure/services/loader/loader.py:52 | the scan covers `min(len(df_raw), max_scan)` rows: no more than either bound, and equal to one of them |
| Loader.FirstAtLeast | src/modules/bank_statement_analyzer/infrastructure/services/loader/loader.py:66-67 | the first index reaching the threshold, with every earlier index below it; none when no index reaches it |
| Loader.BestIndex | src/modules/bank_statement_analyzer/infrastructure/services/loader/loader.py:62-64 | the first index holding the largest score: later ties do not replace it under the strict `>`. It is the same definition as `Common.ArgMax`, on integer scores |
| Loader.HeaderRow | src/modules/bank_statement_analyzer/infrastructure/services/loader/loader.py:31-72 | `_find_header_row` as a function of the sheet; its properties are those of HeaderRowIsScanned, HeaderRowEarlyExit, HeaderRowEarliestBest and HeaderRowFailsIffNothingMatches, and FindHeaderRow is proved to compute it |
| Loader.FindHeaderRow | src/modules/bank_statement_analyzer/infrastructure/services/loader/loader.py:50-72 | the scoring loop with its early return and its error returns exactly the header row the scores determine |
| Loader.HeaderRowIsScanned | src/modules/bank_statement_analyzer/infrastructure/services/loader/loader.py:52 | a found header row always lies among the scanned rows |
| Loader.HeaderRowEarlyExit | src/modules/bank_statement_analyzer/infrastructure/services/loader/loader.py:66-67 | the first scanned row scoring at least `len(required) - 1` is returned |
| Loader.FullHeaderRowFound | src/modules/bank_statement_analyzer/infrastructure/services/loader/loader.py:83 | with the four statement keywords, a row matching all four is returned when no earlier row matches three |
| Loader.HeaderRowEarliestBest | src/modules/bank_statement_analyzer/infrastructure/services/loader/loader.py:62-72 | without an early exit the returned row has a positive score, the best among scanned rows, and beats every earlier row strictly |
| Loader.HeaderRowFailsIffNothingMatches | src/modules/bank_statement_analyzer/infrastructure/services/loader/loader.py:69-70 | with at least two keywords detection fails exactly when every scanned row scores zero (an empty sheet included) |
| Loader.ScanStep | src/modules/bank_statement_analyzer/infrastructure/services/loader/loader.py:52-67 | one loop iteration keeps the loop's knowledge of the scanned scores, or settles the early return |
| Loader.LowerCells | src/modules/bank_statement_analyzer/infrastructure/services/loader/loader.py:53 | every cell of the row lower-cased, in place |
| Loader.Matching | src/modules/bank_statement_analyzer/infrastructure/services/loader/loader.py:113-123 | `detected[t]`: exactly the columns classified as `t`, in column order |
| Loader.MatchingStep | src/modules/bank_statement_analyzer/infrastructure/services/loader/loader.py:113-123 | classifying one more column appends it to its target's list only |
| Loader.FirstMatch | src/modules/bank_statement_analyzer/infrastructure/services/loader/loader.py:125 | the first column classified as `t`, with no earlier column classified so; none when no column is |
| Loader.FirstMatchIsHeadOfMatching | src/modules/bank_statement_analyzer/infrastructure/services/loader/loader.py:125 | `cols[0]` of the detected list is the first match |
| Loader.DetectColumns | src/modules/bank_statement_analyzer/infrastructure/services/loader/loader.py:106-123 | the loop builds the `detected` map holding, for every target, exactly its matching columns |
| Loader.Renamed | src/modules/bank_statement_analyzer/infrastructure/services/loader/loader.py:125-126 | the rename keeps the number of columns and renames each column as the first-match map says |
| Loader.RenameColumns | src/modules/bank_statement_analyzer/infrastructure/services/loader/loader.py:125-126 | the rename built from the detected lists is the first-match rename |
| Loader.IndexOf | src/modules/bank_statement_analyzer/infrastructure/services/loader/loader.py:131 | the first position holding a name; none when the name is absent |
| Loader.RenamedFindsFirstMatch | src/modules/bank_statement_analyzer/infrastructure/services/loader/loader.py:125-131 | when no header already carries a schema name, a column is renamed to a target's schema name exactly when it is the first column detected for that target, so the name is found there |
| Loader.Select | src/modules/bank_statement_analyzer/infrastructure/services/loader/loader.py:125-131 | the selection made on the renamed header: it fails when date, description or amount is missing or a schema name appears twice, and every selected index lies within the header |
| Loader.SelectFrom | src/modules/bank_statement_analyzer/infrastructure/services/loader/loader.py:128-138 | selection succeeds exactly when date, description and amount are present and no schema name appears twice (pandas raises on a missing or duplicated column); each selected index holds its name, and a category index exists exactly when a `category` column does |
| Loader.SelectPrefersDetectedColumns | src/modules/bank_statement_analyzer/infrastructure/services/loader/loader.py:125-131 | on any header, a successful selection reads the first column detected for each target that has one |
| Loader.SchemaNameOnce | src/modules/bank_statement_analyzer/infrastructure/services/loader/loader.py:125-126 | when no header already carries a schema name, the rename gives each schema name to at most one column, and to one exactly when a column was detected for it |
| Loader.SelectReadsFirstDetectedColumns | src/modules/bank_statement_analyzer/infrastructure/services/loader/loader.py:125-131 | when no header already carries a schema name, selection succeeds exactly when date, description and amount columns are detected, and then reads the first detected column of each (category too when present) |
| Loader.Classify | src/modules/bank_statement_analyzer/infrastructure/services/loader/loader.py:113-121 | the target a header names, keywords tried in the source's order; ClassifyBankHeaders and SecondAmountHeaderRejected state its answers on the bank's headers, DetectColumns and Matching its use |
| Loader.ClassifyBankHeaders | src/modules/bank_statement_analyzer/infrastructure/services/loader/loader.py:113-121 | "Дата операции" is a date header, "Описание" a description header, and both "Сумма" and "amount" amount headers |
| Loader.SecondAmountHeaderRejected | src/modules/bank_statement_analyzer/infrastructure/services/loader/loader.py:113-138 | a header holding "Сумма" and a raw "amount" column is rejected: the rename leaves two `amount` columns |
| Loader.CoerceRow | src/modules/bank_statement_analyzer/infrastructure/services/loader/loader.py:132-140 | one data row coerced, or dropped when its date or amount does not parse; Coerce states what that means for the table |
| Loader.Coerce | src/modules/bank_statement_analyzer/infrastructure/services/loader/loader.py:132-140 | every surviving row is a coerced data row, and every row whose date and amount parse survives |
| Loader.CoerceAppend | src/modules/bank_statement_analyzer/infrastructure/services/loader/loader.py:132-140 | coercing two runs of rows is coercing each and concatenating, so survivors keep the statement's order and every occurrence |
| Loader.MissingCategoryDefaults | src/modules/bank_statement_analyzer/infrastructure/services/loader/loader.py:128-129 | without a category column every surviving row has category "Другое" |
| Loader.Normalized | src/modules/bank_statement_analyzer/infrastructure/services/loader/loader.py:93-143 | the selection's error, or the coerced rows; NormalizeColumns is proved to compute it and SelectReadsFirstDetectedColumns states when it fails |
| Loader.NormalizeColumns | src/modules/bank_statement_analyzer/infrastructure/services/loader/loader.py:93-143 | the in-place column detection, renaming, selection, defaulting and row dropping give exactly the normalized table, including its error for a missing or duplicated schema column |
| Loader.LoadStatement | src/modules/bank_statement_analyzer/infrastructure/services/loader/loader.py:20-29 | loading finds the header row, then normalizes the rows below it; it fails with the header error when no header is found and with the selection error when a schema column is missing or duplicated |
| Loader.Load | src/modules/bank_statement_analyzer/infrastructure/services/loader/loader.py:20-29 | the header error, or the normalized rows below the header row; LoadStatement is proved to compute it |
| Categorization.IsMoneyMovement | src/modules/financial_intelligence/infrastructure/services/categorization/semantic_classifier.py:12-23 | some money-movement keyword occurs in the lower-cased description; MoneyMovementIgnoresCase states that case does not matter |
| Categorization.MoneyMovementIgnoresCase | src/modules/financial_intelligence/infrastructure/services/categorization/semantic_classifier.py:12-23 | the money-movement test gives the same answer on the lower-cased description |
| Categorization.LowerIdempotent | src/modules/financial_intelligence/infrastructure/services/categorization/semantic_classifier.py:22 | lower-casing twice is lower-casing once |
| Categorization.SemanticChoice | src/modules/financial_intelligence/infrastructure/services/categorization/semantic_classifier.py:92-97 | the semantic label is the label at the first maximal similarity, and the score is that similarity |
| Categorization.Cascade | src/modules/financial_intelligence/infrastructure/services/categorization/semantic_classifier.py:119-131 | the four-level `np.where` choice of `final_category`; CategorizePriority and BankCategoryOverriddenOnlyWhenUncategorised state its order |
| Categorization.LabelsOf | src/modules/financial_intelligence/infrastructure/services/categorization/semantic_classifier.py:114-131 | the derived columns of one row; Categorize and CategorizeReadsTransactionsOnly state that each row gets them from its own transaction and similarities |
| Categorization.Categorize | src/modules/financial_intelligence/infrastructure/services/categorization/semantic_classifier.py:114-131 | rows are neither added, dropped nor reordered, the transaction and anomaly columns are untouched, and every row gets the derived columns |
| Categorization.CategorizePriority | src/modules/financial_intelligence/infrastructure/services/categorization/semantic_classifier.py:119-128 | money movements get "Финансовые операции"; other rows keep a real bank category; otherwise the MCC category when present, else the semantic label |
| Categorization.BankCategoryOverriddenOnlyWhenUncategorised | src/modules/financial_intelligence/infrastructure/services/categorization/semantic_classifier.py:119-124 | the final category differs from the bank category only for money movements and for rows the bank left as "Прочие операции" |
| Categorization.CategorizeReadsTransactionsOnly | src/modules/financial_intelligence/infrastructure/services/categorization/semantic_classifier.py:114-131 | the derived columns depend only on the transaction columns and the similarities, not on earlier derived columns |
| Categorization.CategorizeIdempotent | src/modules/financial_intelligence/infrastructure/services/categorization/semantic_classifier.py:114-131 | running the stage on its own output gives the same table |
| Categorization.SimilarityMatrix | src/modules/financial_intelligence/infrastructure/services/categorization/semantic_classifier.py:90-92 | one similarity row per transaction, computed from that transaction's description |
| Categorization.TransactionCategorizer.SmartCategory | src/modules/financial_intelligence/infrastructure/services/categorization/semantic_classifier.py:101-131 | writes the derived columns into the stage's table in place, giving the categorized table |
| Categorization.TransactionCategorizer.Run | src/modules/financial_intelligence/infrastructure/services/categorization/semantic_classifier.py:52-60 | `run` leaves the categorized table in the stage and returns it |
| Categorization.TransactionCategorizer.constructor | src/modules/financial_intelligence/infrastructure/services/categorization/semantic_classifier.py:49-50 | the stage holds the table it was given |
| OtherOperations.TrainingSet | src/modules/bank_statement_analyzer/infrastructure/services/classification_other_operations/classifications.py:51-54 | the training examples are exactly the rows whose final category is not "Прочие операции", labelled by their final category |
| OtherOperations.ExampleHasRow | src/modules/bank_statement_analyzer/infrastructure/services/classification_other_operations/classifications.py:51 | every training example comes from a row whose final category is not the sentinel and carries that category as its label |
| OtherOperations.TwoClassesOfRows | src/modules/bank_statement_analyzer/infrastructure/services/classification_other_operations/classifications.py:51-60 | the training set holds two different labels exactly when two rows outside the sentinel have different final categories |
| OtherOperations.Masked | src/modules/bank_statement_analyzer/infrastructure/services/classification_other_operations/classifications.py:79 | the mask `category == "Прочие операции"`; MaskedRowsGetPredictionsInOrder and UnmaskedRowsGetBankCategory state what it selects |
| OtherOperations.MaskedCount | src/modules/bank_statement_analyzer/infrastructure/services/classification_other_operations/classifications.py:79 | the number of masked rows never exceeds the number of rows |
| OtherOperations.NoMaskedRows | src/modules/bank_statement_analyzer/infrastructure/services/classification_other_operations/classifications.py:79 | no row is masked exactly when the masked count is zero |
| OtherOperations.Reclassify | src/modules/bank_statement_analyzer/infrastructure/services/classification_other_operations/classifications.py:33-34 | fails exactly when the training set has fewer than two labels or no row is masked; otherwise keeps every row, its transaction and anomaly column, gives each masked row the prediction for its own description and every other row its bank category |
| OtherOperations.Relabel | src/modules/bank_statement_analyzer/infrastructure/services/classification_other_operations/classifications.py:79-87 | only `final_category` changes; masked rows take the predictions in mask order; every other row gets its bank category |
| OtherOperations.MaskedRowsGetPredictionsInOrder | src/modules/bank_statement_analyzer/infrastructure/services/classification_other_operations/classifications.py:81-84 | read in row order, the masked rows' final categories are exactly the prediction sequence |
| OtherOperations.UnmaskedRowsGetBankCategory | src/modules/bank_statement_analyzer/infrastructure/services/classification_other_operations/classifications.py:85 | every unmasked row ends with its bank category, money movements included |
| OtherOperations.RelabelIdempotent | src/modules/bank_statement_analyzer/infrastructure/services/classification_other_operations/classifications.py:79-85 | the mask reads the bank category only, so merging the same predictions again changes nothing |
| OtherOperations.TrainingAndMaskOverlap | src/modules/bank_statement_analyzer/infrastructure/services/classification_other_operations/classifications.py:51 | a row with the sentinel bank category but a cascade category is both a training example and a masked row |
| OtherOperations.MaskedPredictions | src/modules/bank_statement_analyzer/infrastructure/services/classification_other_operations/classifications.py:81-82 | one prediction per masked row |
| OtherOperations.MaskedPredictionAt | src/modules/bank_statement_analyzer/infrastructure/services/classification_other_operations/classifications.py:81-82 | the prediction at a masked row's place in the mask is the classifier's prediction for that row's description |
| OtherOperations.MaskedRowGetsOwnPrediction | src/modules/bank_statement_analyzer/infrastructure/services/classification_other_operations/classifications.py:81-84 | each masked row ends with the prediction for its own description |
| OtherOperations.MaskedPrefixGetPredictions | src/modules/bank_statement_analyzer/infrastructure/services/classification_other_operations/classifications.py:84 | the masked rows of every prefix carry the predictions consumed so far |
| OtherOperations.ClassificationOtherOperation.ClassifyOtherOperations | src/modules/bank_statement_analyzer/infrastructure/services/classification_other_operations/classifications.py:64-87 | fails with the predict error, leaving the table alone, exactly when no row is masked; otherwise the in-place overwrite loop leaves exactly the merged table |
| OtherOperations.ClassificationOtherOperation.TrainCategoryModel | src/modules/bank_statement_analyzer/infrastructure/services/classification_other_operations/classifications.py:36-62 | fails with the fit error exactly when the training set has fewer than two labels; otherwise returns exactly the training set |
| OtherOperations.ClassificationOtherOperation.Run | src/modules/bank_statement_analyzer/infrastructure/services/classification_other_operations/classifications.py:20-34 | returns the reclassification of the stage's table, error included, and leaves the new table in the stage only on success |
| OtherOperations.ClassificationOtherOperation.constructor | src/modules/bank_statement_analyzer/infrastructure/services/classification_other_operations/classifications.py:17-18 | the stage holds the table it was given |
| Recurring.RealExpenses | src/modules/financial_intelligence/infrastructure/services/behavior/recurring_payment_detector.py:46-49 | keeps only rows that are not money movements and have a negative amount |
| Recurring.RealExpensesComplete | src/modules/financial_intelligence/infrastructure/services/behavior/recurring_payment_detector.py:46-49 | no such row is dropped |
| Recurring.RealExpensesAppend | src/modules/financial_intelligence/infrastructure/services/behavior/recurring_payment_detector.py:46-49 | filtering two tables is filtering each and concatenating, so the real expenses keep the rows' order and every occurrence |
| Recurring.ReplaceDigitRuns | src/modules/financial_intelligence/infrastructure/services/behavior/recurring_payment_detector.py:71 | no digit remains, and apart from spaces the result is the input's non-digit characters in their order |
| Recurring.ReplaceNonWord | src/modules/financial_intelligence/infrastructure/services/behavior/recurring_payment_detector.py:74 | every character that is neither a word character nor whitespace becomes a space, the rest stay in place |
| Recurring.ReplaceRunsKeepsOthers | src/modules/financial_intelligence/infrastructure/services/behavior/recurring_payment_detector.py:71-77 | replacing runs keeps every character that is neither in a run nor a space, in order |
| Recurring.CollapseWhitespace | src/modules/financial_intelligence/infrastructure/services/behavior/recurring_payment_detector.py:77 | only single spaces remain as whitespace, the text is empty exactly when the input is, it starts with a space exactly when the input starts with whitespace, and its non-whitespace characters are the input's in order |
| Recurring.Strip | src/modules/financial_intelligence/infrastructure/services/behavior/recurring_payment_detector.py:77 | no whitespace at either end, empty for all-whitespace input |
| Recurring.StripCutsOuterWhitespace | src/modules/financial_intelligence/infrastructure/services/behavior/recurring_payment_detector.py:77 | the stripped text is the slice of the input between a leading and a trailing run of whitespace, so only outer whitespace is removed |
| Recurring.NormalizeDescription | src/modules/financial_intelligence/infrastructure/services/behavior/recurring_payment_detector.py:68-77 | a cleaned description holds only lower-case, digit-free word characters and single spaces, with no space at either end |
| Recurring.CleaningSteps | src/modules/financial_intelligence/infrastructure/services/behavior/recurring_payment_detector.py:68-77 | after the first four steps only single spaces and clean characters remain |
| Recurring.NormalizeFixesNormal | src/modules/financial_intelligence/infrastructure/services/behavior/recurring_payment_detector.py:68-77 | a cleaned description is its own cleaning |
| Recurring.NormalizeIdempotent | src/modules/financial_intelligence/infrastructure/services/behavior/recurring_payment_detector.py:68-77 | cleaning twice gives the same text as cleaning once |
| Recurring.NormalizeIgnoresDigitRuns | src/modules/financial_intelligence/infrastructure/services/behavior/recurring_payment_detector.py:68-77 | a run of digits anywhere in a description cleans exactly as a single space would, whatever its length |
| Recurring.NormalizeIgnoresPunctuation | src/modules/financial_intelligence/infrastructure/services/behavior/recurring_payment_detector.py:68-77 | a character that is neither a word character nor whitespace cleans exactly as a space would |
| Recurring.DigitStepAroundChar | src/modules/financial_intelligence/infrastructure/services/behavior/recurring_payment_detector.py:71 | a non-digit character splits the digit-run replacement into the replacements on either side of it |
| Recurring.MerchantId | src/modules/financial_intelligence/infrastructure/services/behavior/recurring_payment_detector.py:81-97 | the cleaned description, '|', and the MCC text; MerchantIdSeparates and CleanedHasNoSeparator state when two keys agree |
| Recurring.MerchantIdSeparates | src/modules/financial_intelligence/infrastructure/services/behavior/recurring_payment_detector.py:95-97 | two transactions share a merchant key exactly when their cleaned descriptions and MCC texts agree |
| Recurring.CleanedHasNoSeparator | src/modules/financial_intelligence/infrastructure/services/behavior/recurring_payment_detector.py:95-97 | a cleaned description never contains the separator character of the merchant key |
| Recurring.MerchantKey | src/modules/financial_intelligence/infrastructure/services/behavior/recurring_payment_detector.py:147 | the merchant key as the grouping key; MerchantIdSeparates states what it separates |
| Recurring.Members | src/modules/financial_intelligence/infrastructure/services/behavior/recurring_payment_detector.py:149-150 | a group's rows carry its key, and every row with the key is among them |
| Recurring.MembersAppend | src/modules/financial_intelligence/infrastructure/services/behavior/recurring_payment_detector.py:149-150 | a group's rows over two tables are its rows in each, concatenated: row order and every occurrence are kept |
| Recurring.MembersStartAtFirstOccurrence | src/modules/financial_intelligence/infrastructure/services/behavior/recurring_payment_detector.py:152 | a group's first row is the first row with its key, so its description is the first payment's |
| Recurring.GroupKeys | src/modules/financial_intelligence/infrastructure/services/behavior/recurring_payment_detector.py:149-150 | each key appears once, each has rows, and every row's key is among them |
| Recurring.Aggregate | src/modules/financial_intelligence/infrastructure/services/behavior/recurring_payment_detector.py:149-159 | one row of the `agg` table; GroupBy and GroupByCountsEveryRowOnce state its count and total, MembersStartAtFirstOccurrence its description |
| Recurring.GroupBy | src/modules/financial_intelligence/infrastructure/services/behavior/recurring_payment_detector.py:149-159 | one aggregate per key, whose count and total are those of the rows with that key (see GroupByCountsEveryRowOnce for the whole table) |
| Recurring.GroupByPartitions | src/modules/financial_intelligence/infrastructure/services/behavior/recurring_payment_detector.py:149-159 | group keys are pairwise distinct and every row falls in a group |
| Recurring.MemberCountCoversRows | src/modules/financial_intelligence/infrastructure/services/behavior/recurring_payment_detector.py:155-156 | groups over pairwise different keys covering every row hold each row once: their sizes add up to the number of rows and their amount sums to the sum of all amounts |
| Recurring.GroupByCountsEveryRowOnce | src/modules/financial_intelligence/infrastructure/services/behavior/recurring_payment_detector.py:149-159 | the `count` column adds up to the number of rows grouped and the `total` column to the sum of their amounts |
| Recurring.ExpenseGroupsCountRealExpenses | src/modules/financial_intelligence/infrastructure/services/behavior/recurring_payment_detector.py:145-159 | the merchant groups' counts add up to the number of real expenses and their totals to the sum of those amounts |
| Recurring.ExpenseGroupTotalsNegative | src/modules/financial_intelligence/infrastructure/services/behavior/recurring_payment_detector.py:156 | every group of real expenses has a negative total |
| Recurring.FrequentGroups | src/modules/financial_intelligence/infrastructure/services/behavior/recurring_payment_detector.py:161 | exactly the groups with at least three payments |
| Recurring.RecurringGroups | src/modules/financial_intelligence/infrastructure/services/behavior/recurring_payment_detector.py:205-207 | exactly the frequent groups the recurrence test accepts |
| Recurring.DetectRecurringPayments | src/modules/financial_intelligence/infrastructure/services/behavior/recurring_payment_detector.py:145-164 | fails with pandas' ValueError exactly when the table holds no real expense (the merchant key is then set from an empty `apply`); otherwise the recurring groups |
| Recurring.DetectedGroupsAreRecurring | src/modules/financial_intelligence/infrastructure/services/behavior/recurring_payment_detector.py:161-207 | on success every detected group has at least three payments in at least three months covering half its month span, and a negative total; every such stable group is detected |
| Recurring.StabilityWithoutSquareRoot | src/modules/financial_intelligence/infrastructure/services/behavior/recurring_payment_detector.py:196-202 | with a non-zero mean, `abs(std / mean) < 0.7` holds exactly when variance < 0.49 × mean²; a zero mean never passes |
| Recurring.StabilityOnReals | src/modules/financial_intelligence/infrastructure/services/behavior/recurring_payment_detector.py:202 | the same equivalence for any standard deviation, variance and mean |
| Recurring.DistinctMonths | src/modules/financial_intelligence/infrastructure/services/behavior/recurring_payment_detector.py:184-187 | `months.nunique()`, the number of different calendar months; MonthOfIsCalendarMonth and Distinct state what it counts |
| Recurring.IsRecurring | src/modules/financial_intelligence/infrastructure/services/behavior/recurring_payment_detector.py:182-203 | `is_recurring`; StabilityWithoutSquareRoot, ThreeMonthlyPaymentsRecur, SparsePaymentsDoNotRecur and DetectedGroupsAreRecurring state what it accepts |
| Recurring.MonthSpan | src/modules/financial_intelligence/infrastructure/services/behavior/recurring_payment_detector.py:191 | the inclusive month span is at least one month |
| Recurring.MaxOf | src/modules/financial_intelligence/infrastructure/services/behavior/recurring_payment_detector.py:191 | the latest month is among the months and no month exceeds it |
| Recurring.MinOf | src/modules/financial_intelligence/infrastructure/services/behavior/recurring_payment_detector.py:191 | the earliest month is among the months and no month precedes it |
| Recurring.ThreeMonthlyPaymentsRecur | src/modules/financial_intelligence/infrastructure/services/behavior/recurring_payment_detector.py:199-203 | three equal payments in three consecutive months are recurring |
| Recurring.SparsePaymentsDoNotRecur | src/modules/financial_intelligence/infrastructure/services/behavior/recurring_payment_detector.py:201 | three payments in January, February and December cover too little of their span to recur |
| Recurring.EqualAmountsAreStable | src/modules/financial_intelligence/infrastructure/services/behavior/recurring_payment_detector.py:196-197 | equal amounts have zero spread |
| Recurring.GroupByOfSameTransactions | src/modules/financial_intelligence/infrastructure/services/behavior/recurring_payment_detector.py:149-159 | grouping reads only the transaction columns |
| Recurring.DetectionIgnoresOtherColumns | src/modules/financial_intelligence/infrastructure/services/behavior/recurring_payment_detector.py:128-207 | detection reads only the transaction columns and the money-movement flag |
| Recurring.RecurringPaymentDetector.Run | src/modules/financial_intelligence/infrastructure/services/behavior/recurring_payment_detector.py:22-29 | the detector's result: an error exactly when no row is a real expense, otherwise groups each with at least three payments and a negative total |
| Recurring.RecurringPaymentDetector.constructor | src/modules/financial_intelligence/infrastructure/services/behavior/recurring_payment_detector.py:19-20 | the stage holds the table it was given |
| Anomalies.AmountColumn | src/modules/bank_statement_analyzer/infrastructure/services/anomalies/anomalies_spending.py:44 | the forest's only feature is the amount of every row, in row order |
| Anomalies.WithAnomalies | src/modules/bank_statement_analyzer/infrastructure/services/anomalies/anomalies_spending.py:44-55 | the `anomaly` column is written from the forest's verdict for each row and nothing else changes |
| Anomalies.AnomalousRows | src/modules/financial_intelligence/pipeline/pipeline.py:72 | exactly the rows flagged anomalous, drawn from the table |
| Anomalies.AnomalousRowsAppend | src/modules/financial_intelligence/pipeline/pipeline.py:72 | the flagged rows of two tables are those of each, concatenated: row order and every occurrence are kept |
| Anomalies.AnomaliesAreTheOutliers | src/modules/financial_intelligence/pipeline/pipeline.py:72 | a row is listed as an anomaly exactly when the forest flagged its amount |
| Anomalies.AnomaliesSpendingAnalyzer.Run | src/modules/bank_statement_analyzer/infrastructure/services/anomalies/anomalies_spending.py:21-55 | the stage's table gets its `anomaly` column in place and is returned |
| Anomalies.AnomaliesSpendingAnalyzer.constructor | src/modules/bank_statement_analyzer/infrastructure/services/anomalies/anomalies_spending.py:18-19 | the stage holds the table it was given |
| Behavior.RowMonths | src/modules/financial_intelligence/infrastructure/services/behavior/user_behavior_model.py:47 | the month bucket of every row is the calendar month of its date |
| Behavior.RowCategories | src/modules/financial_intelligence/infrastructure/services/behavior/user_behavior_model.py:50 | the final category of every row, in row order |
| Behavior.Spent | src/modules/financial_intelligence/infrastructure/services/behavior/user_behavior_model.py:49-55 | the signed sum of one (month, category) cell of `pivot_table`; SpentOfEmptyCell and Cells state its properties |
| Behavior.SpentOfEmptyCell | src/modules/financial_intelligence/infrastructure/services/behavior/user_behavior_model.py:52 | a (month, category) pair no row has sums to zero |
| Behavior.PivotMonths | src/modules/financial_intelligence/infrastructure/services/behavior/user_behavior_model.py:49-53 | the pivot's months are exactly the months that have a row, strictly ascending, so each appears once |
| Behavior.PivotCategories | src/modules/financial_intelligence/infrastructure/services/behavior/user_behavior_model.py:49-53 | the pivot's columns are exactly the final categories that have a row, each once |
| Behavior.Cells | src/modules/financial_intelligence/infrastructure/services/behavior/user_behavior_model.py:49-56 | every cell is the absolute value of the signed sum of its month and category, hence non-negative |
| Behavior.Pivot | src/modules/financial_intelligence/infrastructure/services/behavior/user_behavior_model.py:47-64 | the profile holds every month and category once, absolute cell sums, and the given abnormal-month flag for every month |
| Behavior.Flags | src/modules/financial_intelligence/infrastructure/services/behavior/user_behavior_model.py:64 | one abnormal-month flag per month |
| Behavior.NormalRows | src/modules/financial_intelligence/infrastructure/services/behavior/user_behavior_model.py:85 | one row of all category values per normal month; there are normal rows exactly when some month is normal |
| Behavior.NormalCount | src/modules/financial_intelligence/infrastructure/services/behavior/user_behavior_model.py:85 | the number of normal months among the first `n`, never more than `n` |
| Behavior.NormalRowsAreNormalMonths | src/modules/financial_intelligence/infrastructure/services/behavior/user_behavior_model.py:85 | the normal rows are the cells of the normal months, in month order: as many rows as normal months, each normal month's cells at its place among them |
| Behavior.Column | src/modules/financial_intelligence/infrastructure/services/behavior/user_behavior_model.py:92 | one category's values over the given months |
| Behavior.Baseline | src/modules/financial_intelligence/infrastructure/services/behavior/user_behavior_model.py:92 | one entry per category: the mean of that category's column over the normal months |
| Behavior.Deviations | src/modules/financial_intelligence/infrastructure/services/behavior/user_behavior_model.py:95 | each category's deviation is the month's value minus that category's baseline |
| Behavior.TopDeviations | src/modules/financial_intelligence/infrastructure/services/behavior/user_behavior_model.py:97 | the three largest deviations (all of them when fewer), in descending order, a sub-multiset of the month's, none left out being larger |
| Behavior.PositiveAdvice | src/modules/financial_intelligence/infrastructure/services/behavior/user_behavior_model.py:99-104 | one overspend line per positive deviation, each naming a deviation of the month |
| Behavior.PositiveAdviceComplete | src/modules/financial_intelligence/infrastructure/services/behavior/user_behavior_model.py:100 | every positive deviation gets its line |
| Behavior.PositiveAdviceDescending | src/modules/financial_intelligence/infrastructure/services/behavior/user_behavior_model.py:97-99 | lines from descending deviations come in descending excess |
| Behavior.MonthAdvice | src/modules/financial_intelligence/infrastructure/services/behavior/user_behavior_model.py:94-104 | at most three lines per abnormal month |
| Behavior.MonthAdviceIsTopThree | src/modules/financial_intelligence/infrastructure/services/behavior/user_behavior_model.py:94-104 | an abnormal month's lines are overspends of that month, at most three, in descending excess, each a positive deviation of one of its cells, with no larger deviation left out |
| Behavior.AdviceLineIsDeviation | src/modules/financial_intelligence/infrastructure/services/behavior/user_behavior_model.py:95-100 | each line of a month is one of its positive deviations |
| Behavior.PositiveAdviceFromTop | src/modules/financial_intelligence/infrastructure/services/behavior/user_behavior_model.py:97-100 | each line comes from the month's deviations and no deviation left out of the top three is larger |
| Behavior.TopPositiveDeviationsAreReported | src/modules/financial_intelligence/infrastructure/services/behavior/user_behavior_model.py:97-104 | every positive deviation among the top three becomes a line |
| Behavior.Explain | src/modules/financial_intelligence/infrastructure/services/behavior/user_behavior_model.py:68-106 | `explain_monthly_anomalies`; StableIffNoAbnormalMonth, AllMonthsAbnormalSaysNothing, AdviceInMonthOrder and BlockLinesAreOverspends state its lines, and ExplainMonthlyAnomalies is proved to compute it |
| Behavior.StableIffNoAbnormalMonth | src/modules/financial_intelligence/infrastructure/services/behavior/user_behavior_model.py:88-90 | the stable sentence is said exactly when no month is abnormal, and then alone |
| Behavior.BlockLinesAreOverspends | src/modules/financial_intelligence/infrastructure/services/behavior/user_behavior_model.py:94-104 | every advice line is an overspend of an abnormal month |
| Behavior.AllMonthsAbnormalSaysNothing | src/modules/financial_intelligence/infrastructure/services/behavior/user_behavior_model.py:92-100 | when every month is abnormal the baseline is undefined and no line is produced |
| Behavior.AdviceInMonthOrder | src/modules/financial_intelligence/infrastructure/services/behavior/user_behavior_model.py:94-99 | every line names an abnormal month, and the lines come in month order |
| Behavior.FlattenContains | src/modules/financial_intelligence/infrastructure/services/behavior/user_behavior_model.py:94 | every line of every month's block is in the advice |
| Behavior.MonthBlocks | src/modules/financial_intelligence/infrastructure/services/behavior/user_behavior_model.py:94 | one block of lines per month of the profile |
| Behavior.UserBehaviorModel.ExplainMonthlyAnomalies | src/modules/financial_intelligence/infrastructure/services/behavior/user_behavior_model.py:68-106 | the nested append loops produce exactly the explanation of the profile |
| Behavior.UserBehaviorModel.AppendMonthAdvice | src/modules/financial_intelligence/infrastructure/services/behavior/user_behavior_model.py:99-104 | the inner loop appends exactly the month's positive lines |
| Behavior.UserBehaviorModel.Build | src/modules/financial_intelligence/infrastructure/services/behavior/user_behavior_model.py:20-31 | `build` returns the pivot and the explanation of exactly that pivot |
| Behavior.UserBehaviorModel.constructor | src/modules/financial_intelligence/infrastructure/services/behavior/user_behavior_model.py:17-18 | the model holds the table it was given |
| Savings.Round2 | src/modules/bank_statement_analyzer/infrastructure/services/estimation_savings/estimate_savings.py:38 | the rounded value is within half a cent of the input and keeps its sign |
| Savings.Round2WholeCents | src/modules/bank_statement_analyzer/infrastructure/services/estimation_savings/estimate_savings.py:38 | the rounded value is a whole number of cents, and an exact half-cent tie goes to the even cent |
| Savings.MonthExcess | src/modules/bank_statement_analyzer/infrastructure/services/estimation_savings/estimate_savings.py:28-31 | half of every positive deviation of a month, never negative |
| Savings.MonthExcessCovers | src/modules/bank_statement_analyzer/infrastructure/services/estimation_savings/estimate_savings.py:29-31 | one positive deviation contributes half of itself to its month |
| Savings.MonthExcessZero | src/modules/bank_statement_analyzer/infrastructure/services/estimation_savings/estimate_savings.py:29 | a month without a positive deviation contributes nothing |
| Savings.ExcessUpTo | src/modules/bank_statement_analyzer/infrastructure/services/estimation_savings/estimate_savings.py:25-31 | what the outer loop has added, never negative |
| Savings.ExcessUpToCovers | src/modules/bank_statement_analyzer/infrastructure/services/estimation_savings/estimate_savings.py:25-31 | each abnormal month's excess is counted in the total |
| Savings.ExcessUpToZero | src/modules/bank_statement_analyzer/infrastructure/services/estimation_savings/estimate_savings.py:25-31 | no abnormal month with an excess, no excess at all |
| Savings.Totals | src/modules/bank_statement_analyzer/infrastructure/services/estimation_savings/estimate_savings.py:36 | the total of every recurring group |
| Savings.RawSavings | src/modules/bank_statement_analyzer/infrastructure/services/estimation_savings/estimate_savings.py:14-36 | the estimate before rounding is never negative |
| Savings.SavingsOf | src/modules/bank_statement_analyzer/infrastructure/services/estimation_savings/estimate_savings.py:14-38 | the estimate is non-negative, within half a cent of the raw estimate, and 0.0 when there is no normal or no abnormal month |
| Savings.RecurringOnlyAdds | src/modules/bank_statement_analyzer/infrastructure/services/estimation_savings/estimate_savings.py:34-36 | recurring groups only add to the estimate, exactly 0.6 × the absolute sum of their totals when the guard passes |
| Savings.SilentMonthHasNoExcess | src/modules/bank_statement_analyzer/infrastructure/services/estimation_savings/estimate_savings.py:28-31 | an abnormal month without advice lines has no positive deviation to save on |
| Savings.SavingsBackAdvice | src/modules/bank_statement_analyzer/infrastructure/services/estimation_savings/estimate_savings.py:25-36 | every overspend line is backed by at least half its excess, and without lines only the recurring share remains |
| Savings.CoveredLine | src/modules/bank_statement_analyzer/infrastructure/services/estimation_savings/estimate_savings.py:29-31 | a month's line is backed by half its excess in that month |
| Savings.RawSavingsCoversExcess | src/modules/bank_statement_analyzer/infrastructure/services/estimation_savings/estimate_savings.py:25-36 | the raw estimate is at least the excess over all months |
| Savings.LoudMonth | src/modules/bank_statement_analyzer/infrastructure/services/estimation_savings/estimate_savings.py:25-31 | a month with lines puts an overspend into the advice |
| Savings.EstimateSavings.EstimateOf | src/modules/bank_statement_analyzer/infrastructure/services/estimation_savings/estimate_savings.py:9-38 | the guarded accumulation loops compute exactly the rounded estimate |
| Savings.EstimateSavings.Estimate | src/modules/bank_statement_analyzer/infrastructure/services/estimation_savings/estimate_savings.py:6-7 | `estimate` returns the estimate of the stage's groups and profile |
| Savings.EstimateSavings.constructor | src/modules/bank_statement_analyzer/infrastructure/services/estimation_savings/estimate_savings.py:2-4 | the stage holds the recurring groups and the profile it was given |
| Report.Divide | src/modules/financial_intelligence/pipeline/pipeline.py:124 | division yields a number whose product with the divisor is the dividend, and a non-finite value exactly for a zero divisor |
| Report.Lines | src/modules/financial_intelligence/pipeline/pipeline.py:123-125 | one line per element, in order |
| Report.SpendingByCategory | src/modules/financial_intelligence/pipeline/pipeline.py:114-118 | one entry per final category with its absolute signed sum, each category once, in descending order |
| Report.SpendingSorted | src/modules/financial_intelligence/pipeline/pipeline.py:114-118 | sorting the category totals keeps every category's total and orders them descending |
| Report.EveryCategoryListed | src/modules/financial_intelligence/pipeline/pipeline.py:114-118 | every final category of the table has its entry |
| Report.Share | src/modules/financial_intelligence/pipeline/pipeline.py:124 | a share is non-finite exactly when the total is zero |
| Report.SharesAddUpToHundred | src/modules/financial_intelligence/pipeline/pipeline.py:121-124 | with a non-zero total the shares add up to 100 |
| Report.ShareValues | src/modules/financial_intelligence/pipeline/pipeline.py:124 | each finite share is the value over the total, times 100 |
| Report.SpendingBlock | src/modules/financial_intelligence/pipeline/pipeline.py:112 | the spending section opens with its title |
| Report.RecurringBlock | src/modules/financial_intelligence/pipeline/pipeline.py:130 | the recurring section opens with its title |
| Report.RecurringSection | src/modules/financial_intelligence/pipeline/pipeline.py:132-140 | the sentinel line appears exactly when there are no groups; otherwise one line per group in ascending total order |
| Report.ShownAnomalies | src/modules/financial_intelligence/pipeline/pipeline.py:150 | at most ten anomalies are shown |
| Report.ShownAreSmallest | src/modules/financial_intelligence/pipeline/pipeline.py:150 | the shown operations come from the anomalies, in ascending amount, and none left out has a smaller amount |
| Report.Described | src/modules/bank_statement_analyzer/pipeline.py:114 | the description in full without a limit; with one, its first `min(len, limit)` characters followed by '…' |
| Report.AnomalyBlock | src/modules/financial_intelligence/pipeline/pipeline.py:145 | the unusual-spending section opens with its title |
| Report.AnomalySection | src/modules/financial_intelligence/pipeline/pipeline.py:147-154 | the sentinel appears exactly when there are no anomalies, and the section holds at most ten lines |
| Report.AdviceBlock | src/modules/financial_intelligence/pipeline/pipeline.py:159 | the behaviour section opens with its title |
| Report.AdviceSection | src/modules/financial_intelligence/pipeline/pipeline.py:161-162 | one "- " line per advice string, in input order |
| Report.StablePage | src/modules/financial_intelligence/pipeline/pipeline.py:159-164 | with no abnormal month the behaviour page is its title and the stable sentence |
| Report.SavingsBlock | src/modules/financial_intelligence/pipeline/pipeline.py:167-170 | the savings section opens with its title |
| Report.Sections | src/modules/financial_intelligence/pipeline/pipeline.py:109-174 | the report has exactly five sections |
| Report.SectionTitles | src/modules/financial_intelligence/pipeline/pipeline.py:109-174 | every section opens with its title, in the fixed order |
| Report.Pages | src/modules/financial_intelligence/pipeline/pipeline.py:88-174 | the five sections, each joined into one page; PagesInFixedOrder states their order and titles |
| Report.Text | src/modules/bank_statement_analyzer/pipeline.py:61-132 | all lines of the five sections joined by newlines; TextJoinsPages relates it to the pages |
| Report.PagesInFixedOrder | src/modules/financial_intelligence/pipeline/pipeline.py:109-174 | five pages in the fixed order, each opening with its title; the last states the savings |
| Report.TextJoinsPages | src/modules/bank_statement_analyzer/pipeline.py:132 | the single text is the five pages joined by newlines |
| Report.JoinFlatten | src/modules/bank_statement_analyzer/pipeline.py:132 | joining all lines of non-empty blocks equals joining the joined blocks |
| Report.AppendLines | src/modules/financial_intelligence/pipeline/pipeline.py:123-125 | the append loop adds one line per element, in order |
| Report.WriteSpending | src/modules/financial_intelligence/pipeline/pipeline.py:112-127 | the spending loop builds exactly the spending section |
| Report.WriteRecurring | src/modules/financial_intelligence/pipeline/pipeline.py:130-142 | the recurring loop builds exactly the recurring section |
| Report.WriteAnomalies | src/modules/financial_intelligence/pipeline/pipeline.py:145-156 | the anomaly loop builds exactly the unusual-spending section |
| Report.WriteAdvice | src/modules/financial_intelligence/pipeline/pipeline.py:159-164 | the advice loop builds exactly the behaviour section |
| Pipelines.LoadedRows | src/modules/financial_intelligence/pipeline/pipeline.py:59 | the loaded transactions as a table without derived columns |
| Pipelines.Categorized | src/modules/financial_intelligence/pipeline/pipeline.py:61-62 | the categorizer keeps every transaction in place, with the derived columns and no anomaly column |
| Pipelines.Prepared | src/modules/financial_intelligence/pipeline/pipeline.py:61-65 | the categorizer then the reclassifier: on success every transaction stays in place with the derived columns added |
| Pipelines.PreparedFails | src/modules/financial_intelligence/pipeline/pipeline.py:61-65 | the labelling stages fail exactly when no transaction has the bank's "other operations" category or the categorized table offers fewer than two labels |
| Pipelines.Analysis | src/modules/financial_intelligence/pipeline/pipeline.py:59-78 | fails exactly when the labelling stages fail or the labelled table holds no real expense, with that stage's message; otherwise the final table carries the derived columns |
| Pipelines.IncomeOnlyStatementFails | src/modules/financial_intelligence/pipeline/pipeline.py:61-68 | a statement without a debit never reaches the report: the recurring stage fails whatever the classifiers answer |
| Pipelines.Analyze | src/modules/financial_intelligence/pipeline/pipeline.py:59-78 | fails exactly when loading fails, the labelling stages fail, or no real expense is left for the recurring stage, with that stage's message; otherwise one labelled row per loaded transaction |
| Pipelines.AnalysisKeepsTransactions | src/modules/financial_intelligence/pipeline/pipeline.py:59-75 | the final table holds the loaded transactions, none added, dropped or reordered, with every column written |
| Pipelines.RecurringIgnoresAnomalyStage | src/modules/financial_intelligence/pipeline/pipeline.py:67-71 | the recurring groups of the pre-anomaly table are those of the final table |
| Pipelines.AnomaliesOfLoadedAmounts | src/modules/financial_intelligence/pipeline/pipeline.py:70-72 | a row is listed as an anomaly exactly when the forest flagged its loaded amount |
| Pipelines.FinancialIntelligenceReport | src/modules/financial_intelligence/pipeline/pipeline.py:49-86 | the report pages of the analysis or its error; FinancialIntelligencePipeline.Run is proved to return it, and Analyze states when it fails |
| Pipelines.AnalyzerReport | src/modules/bank_statement_analyzer/pipeline.py:31-59 | the report text of the analysis or its error; AnalyzerPipeline.Run is proved to return it, and Analyze states when it fails |
| Pipelines.PagesAreJoinedBlocks | src/modules/financial_intelligence/pipeline/pipeline.py:109-174 | the pages are the five sections, each joined by newlines |
| Pipelines.TextIsJoinedBlocks | src/modules/bank_statement_analyzer/pipeline.py:69-132 | the text is all lines of the five sections joined by newlines |
| Pipelines.FinancialIntelligencePipeline.Run | src/modules/financial_intelligence/pipeline/pipeline.py:49-86 | `run` loads, runs the stages in order and returns the report pages, or the loading, classifier or recurring-stage error |
| Pipelines.FinancialIntelligencePipeline.LabelRows | src/modules/financial_intelligence/pipeline/pipeline.py:61-65 | the categorizer then the reclassifier, each on the previous table, or the classifier error |
| Pipelines.FinancialIntelligencePipeline.RunStages | src/modules/financial_intelligence/pipeline/pipeline.py:61-78 | the stages in their fixed order give the analysis of the transactions, stopping at a classifier or recurring-stage error |
| Pipelines.FinancialIntelligencePipeline.FindRecurring | src/modules/financial_intelligence/pipeline/pipeline.py:67-68 | the recurring stage returns the detected groups, or its error on a table without a real expense |
| Pipelines.FinancialIntelligencePipeline.FlagAnomalies | src/modules/financial_intelligence/pipeline/pipeline.py:70-71 | the anomaly stage writes the anomaly column |
| Pipelines.FinancialIntelligencePipeline.BuildProfile | src/modules/financial_intelligence/pipeline/pipeline.py:74-75 | the behaviour stage returns the pivot and its explanation |
| Pipelines.FinancialIntelligencePipeline.EstimateSavingsOf | src/modules/financial_intelligence/pipeline/pipeline.py:77-78 | the savings stage returns the estimate |
| Pipelines.FinancialIntelligencePipeline.FormatUserReport | src/modules/financial_intelligence/pipeline/pipeline.py:88-174 | the report pages of the findings |
| Pipelines.FinancialIntelligencePipeline.constructor | src/modules/financial_intelligence/pipeline/pipeline.py:36-47 | the pipeline holds the statement and no stage yet |
| Pipelines.AnalyzerPipeline.Run | src/modules/bank_statement_analyzer/pipeline.py:31-59 | `run` loads, runs the stages in order and returns the report text, or the loading, classifier or recurring-stage error |
| Pipelines.AnalyzerPipeline.LabelRows | src/modules/bank_statement_analyzer/pipeline.py:34-38 | the categorizer then the reclassifier, each on the previous table, or the classifier error |
| Pipelines.AnalyzerPipeline.RunStages | src/modules/bank_statement_analyzer/pipeline.py:34-51 | the stages in their fixed order give the analysis of the transactions, stopping at a classifier or recurring-stage error |
| Pipelines.AnalyzerPipeline.FindRecurring | src/modules/bank_statement_analyzer/pipeline.py:40-41 | the recurring stage returns the detected groups, or its error on a table without a real expense |
| Pipelines.AnalyzerPipeline.FlagAnomalies | src/modules/bank_statement_analyzer/pipeline.py:43-44 | the anomaly stage writes the anomaly column |
| Pipelines.AnalyzerPipeline.BuildProfile | src/modules/bank_statement_analyzer/pipeline.py:47-48 | the behaviour stage returns the pivot and its explanation |
| Pipelines.AnalyzerPipeline.EstimateSavingsOf | src/modules/bank_statement_analyzer/pipeline.py:50-51 | the savings stage returns the estimate |
| Pipelines.AnalyzerPipeline.FormatUserReport | src/modules/bank_statement_analyzer/pipeline.py:61-132 | the report text of the findings |
| Pipelines.AnalyzerPipeline.constructor | src/modules/bank_statement_analyzer/pipeline.py:18-29 | the pipeline holds the statement and no stage yet |
| Files.AfterLastDot | domain/file.py:12 | the text after the last '.': a dot-free suffix preceded by a '.', or the whole name when it has none |
| Files.Extension | domain/file.py:11-12 | the extension is dot-free and lower-case |
| Files.IsSupported | domain/file.py:14-15 | the lower-cased suffix is a supported extension; ExtensionIgnoresCase, TrailingDotRejected and BareExtensionAcceptedByFileOnly state its answers |
| Files.IsSupportedFile | application/services.py:8-11 | an empty or dot-free name is refused, otherwise as IsSupported; ServiceCheckRefinesFileCheck relates the two |
| Files.ExtensionIgnoresCase | domain/file.py:12 | the extension, and so acceptance, ignores the case of the name |
| Files.UpperCaseExtensionAccepted | domain/file.py:12 | "STATEMENT.XLSX" is accepted by both checks |
| Files.TrailingDotRejected | domain/file.py:12-15 | a name ending in '.' has an empty extension and is rejected by both checks |
| Files.DotFreeName | domain/file.py:12-15 | a dot-free name is its own lower-cased extension and is refused by the service check |
| Files.BareExtensionAcceptedByFileOnly | domain/file.py:15 | "csv" is accepted by the file's check but not by the service's |
| Files.ServiceCheckRefinesFileCheck | application/services.py:9-11 | the service accepts exactly the dotted names the file accepts, and an accepted name passes the guard |
| Files.ProcessFile | src/application/services.py:22-25 | an unsupported name fails with "Unsupported file format" before anything runs; otherwise the result is the run on the file |

## Left out

- The machine-learning steps are inputs: the SentenceTransformer embeddings (`embed`), TF-IDF with logistic regression, IsolationForest (both the per-row anomaly detector and the per-month one), StandardScaler, DBSCAN and `_make_time_features`. The DBSCAN labels and the time features only add diagnostic columns; they never filter a group.
- `MCCHelper.extract_mcc`, `MCCHelper.classify_by_mcc`, `FINANCE_KEYWORDS` and `CATEGORY_PROTOTYPES` are not part of this model. They are parameters (`Classifier`, `Parsers`).
- Spreadsheet reading (`pd.read_excel`), the drop of all-empty rows and the drop of "Unnamed" columns are file I/O and pandas internals. The sheet is given as cells.
- Date parsing (`dayfirst`) and numeric coercion are abstract partial parsers (`Parsers`). A row survives exactly when both parse.
- Loader.Coerce: every description cell is text here. The loader drops only rows without a date or an amount, so an empty (NaN) or numeric description cell survives; for a real expense, `_normalize_description` then calls `lower()` on a float and raises `AttributeError`. Recurring.NormalizeDescription does not model that failure. An empty bank-category cell is also read as NaN and survives: the cascade gives such a row a NaN `final_category` (it is not "Прочие операции"), the training set keeps it, and `LogisticRegression.fit` raises on the NaN label. The model reads that cell as the text "", trains on it as an ordinary label and returns a report.
- Loader.LoadStatement: the `ValueError` raised for a missing header is an `Err` result, and so is the `KeyError` pandas raises when a schema column is missing, and the error pandas raises when a schema column appears twice after the rename.
- Loader.SelectFrom: a second `category` column is an `Err` here. The source keeps both columns, and what later stages would do with them is not modelled. The exceptions pandas raises for a missing or a duplicated column are folded into two fixed messages.
- Loader.Score: scores are integers. The source compares them the same way, so nothing is lost.
- Common.Lower: lower-casing covers the Latin and basic Cyrillic capitals only, without full Unicode case mapping. `\w` (Common.IsWordChar) is likewise Latin letters, digits, `_` and the basic Cyrillic letters. `\d` (Common.IsDigit) is the ASCII digits only, while Python's `\d` on a `str` also matches other Unicode decimal digits.
- Recurring.GroupBy: groups come in first-appearance order, while pandas sorts them by merchant key. Membership, counts, totals and the recurring test do not depend on this order. The report re-sorts the groups by total anyway, but groups with equal totals may come out in a different order.
- Recurring.MerchantIdSeparates: the text of the MCC (Python's `str` of a float cell) is a parameter `show`.
- Report.SpendingByCategory: categories with equal totals may appear in a different order than pandas' unstable sort gives.
- Report.ShownAnomalies: ties between equal amounts are broken by a stable insertion sort; pandas does not promise any order for ties.
- Behavior.PivotMonths: months are consecutive integers (`year * 12 + month - 1`) rather than pandas periods. Categories appear in first-appearance order instead of pandas' sorted columns, so advice lines with equal deviations may appear in a different order.
- Behavior.Baseline: the mean of an empty set of normal months (NaN in NumPy) is not computed. Explain handles the all-abnormal case the way the NaN comparisons do: no line at all.
- Savings.Round2: `round(x, 2)` is the nearest multiple of 0.01 on exact reals, with halves to even. Float64 binary rounding is not modelled.
- Amounts are exact reals, not float64. Division by zero is a `NonFinite` value standing for `inf`/`nan`.
- Number, date and period rendering (`:,.0f`, `:.1f`, `.date()`, the period label) are the abstract `Formatter`. Only the fixed text around them is modelled.
- OtherOperations.Reclassify: `LogisticRegression.fit` raising on fewer than two labels and `predict` raising on no masked row are both `Err` results. The `TfidfVectorizer` failure on an empty vocabulary (no description with a token) is not modelled; the predictions are a given function.
- The `recurring_groups` columns added in place (`merchant_id`, `cluster`, `features`, `is_recurring`) are not modelled. A `Group` holds only the aggregated columns that later stages read.
- The `month` column that the behaviour model adds to its table is not written. The model computes it where the pivot needs it.
- I/O and runtime plumbing are not part of this model:
  - `asyncio.to_thread` and the backend HTTP call of the two `process_file` functions;
  - `src/main.py`, `src/config.py`, `src/infrastructure/backend_client.py` and `src/modules/financial_intelligence/main.py`;
  - the `PipelineItem` protocols.
- The `financial_intelligence` ingestor, reclassifier, anomaly detector and savings estimator that its `pipeline.py` imports are not part of this model. The `bank_statement_analyzer` versions stand in for them.
