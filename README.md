# EGFR mutation analyzer — a Dafny model

This project models the analysis core of an EGFR mutation analyzer. The
analyzer takes mutation descriptors (a type such as "Point Mutation" or
"Amplification", a detail such as "L858R" or a copy number, and an exon). For
each descriptor it:

- classifies it against a small knowledge base, giving a mechanism, the
  affected signalling pathways and a resistance score;
- rates seven drugs in four drug classes High, Medium or Low;
- aggregates the results for display and for a PDF report.

The repository has two independent engines, and both are modelled:

- `app.py`'s own `EGFRAnalyzer` (modules `AppEngine`, `AppEngineFacts`),
  with the session lists the web page keeps (`AppSession`). Its results page
  has the four summary metrics, the card colours, the per-drug treatment
  tally and the pathway diagram (`AppSummary`, `DrugTally`).
- `logic.py`'s `MutationClassifier` and `EGFRAnalyzer` (`LogicEngine`,
  `LogicFacts`). These have different tables and scores, substring rules
  for insertions and deletions, a title-cased class label, detailed
  mechanism texts, and an exception when a copy number is not an integer
  or is too large to convert to a float.

The data shaping of `visualizer.py` is modelled in `Visualizer`:

- the affected-pathway union;
- the node highlight rule;
- the landscape series;
- the efficacy heatmap matrix.

The data shaping of `report_generator.py` is modelled in `Report`: the drug
table rows and the executive summary paragraph.

Shared pieces are defined once:

- `Records`: the record types, the flattening of all recommendations and the
  high-resistance count;
- `Ladder`: the efficacy ladder both engines use, with their own tables;
- `Pathways`: the affected-pathway union and the highlight rule both diagrams
  use;
- `Text`: Python's `in` on strings, `str.isdigit`, `int()`, `str()`,
  `.lower()`, `.title()`, `.replace()` and `.strip()`, restricted to ASCII.

Resistance scores are whole hundredths, so 0.3 is 30. A Python exception is
a `Failure` of the `Result` type in `Wrappers`.

Neither engine rates any drug High for L858R or T790M, whatever type they
are entered under (`AppSummary.NoHighFor`). L858R scores 0.3, and the ladder
only rates High below 0.3. T790M is on the 1st/2nd-generation resistant lists
and scores 0.8 on the 3rd-generation effective list.
`AppSummary.AcquiredResistanceSummary` states the app's acquired-resistance
example in full: mean 0.55, one high-resistance case, no High rating. Only
the type "Point Mutation" consults the logic engine's knowledge base, so
there "L858R" typed as a deletion scores 0.4, where the app engine scores it
0.3 (`LogicFacts.DeletionTypedL858R`).

## Model

| member | source | states |
|---|---|---|
| `Text.ParseIntToString` | logic.py:69 | `int()` reads back every integer that `str()` prints: a copy number entered as `str(n)` is parsed to n |
| `Text.TitleAt` | logic.py:211 | `.title()` upper-cases each cased character that follows an uncased one (or the start) and lower-cases each one that follows a cased one |
| `Text.StripFramed` | logic.py:271-272 | stripping a text framed by whitespace, whose own first and last characters are not whitespace, gives back exactly the text |
| `Records.AllRecommendationsAt` | app.py:775-777 | in the flattened list of all recommendations, recommendation j of result i sits at (number of recommendations of results before i) + j |
| `Records.AllRecommendationsLength` | app.py:775-777 | the flattened list has as many entries as all results' recommendation lists together |
| `Records.HighResistanceCountRange` | app.py:690 | the high-resistance count is at most the number of results; it is 0 exactly when no score is above 0.7 and equal to the number of results exactly when every score is |
| `Records.HighResistanceCountAppend` | report_generator.py:109 | the count over two lists of results is the sum of the two counts |
| `Ladder.MatchesAnyIff` | app.py:266 | the `any(detail in pattern ...)` test holds exactly when the detail occurs inside one of the listed patterns |
| `Ladder.Assess` | app.py:262-280 | the ladder never answers "None"; it answers High exactly on an effective-list match below 0.3, or, with no list match, an all-digit detail of at least 4 on the antibody class; Low exactly on an effective-list match from 0.6 up, or a resistant-list match without an effective one; Medium otherwise |
| `Ladder.ScoreEfficacyMonotone` | app.py:267-272 | a higher resistance score never gives a better rating |
| `Ladder.EmptyDetailIsEffective` | app.py:266 | an empty detail occurs in every pattern, so it always takes the score branch of the ladder |
| `AppEngine.AnalyzeAmplification` | app.py:211-229 | an amplification is of kind amplification, affects MAPK/ERK, PI3K/AKT and JAK/STAT, and scores at most 0.7 |
| `AppEngine.CalculateEfficacy` | app.py:262-280 | never "None"; an effective-list match of the class rates by score; otherwise a resistant-list match gives Low; a class other than "Monoclonal Antibody" with no list match gets Medium |
| `AppEngine.GenerateRecommendations` | app.py:244-260 | the nested loop over classes and drugs yields exactly the recommendation list defined class by class, drug by drug |
| `AppEngine.AnalyzeMutation` | app.py:187-209 | the result record is the analysis of the descriptor and carries the descriptor unchanged |
| `AppEngineFacts.KnownDetailIgnoresType` | app.py:189-190 | a detail in the knowledge base gets its entry whatever type it is entered under |
| `AppEngineFacts.AmplificationTypedL858R` | app.py:189-192 | "L858R" typed as an amplification is still the activating L858R entry, score 0.3 |
| `AppEngineFacts.KnownScores` | app.py:103-154 | L858R 0.3, T790M 0.8, Del19 0.2, G719X 0.4 and "Exon 20 ins" 0.75, under any type |
| `AppEngineFacts.AmplificationScoreShape` | app.py:218 | `min(0.7, 0.3 + (n-2)*0.05)` is at most 0.7, is 0.7 from 10 copies on, follows the linear formula below 10, and never decreases with n |
| `AppEngineFacts.KeysStartWithLetter` | app.py:103-154 | every knowledge-base key starts with an upper-case letter, so no copy number is ever taken for a known mutation |
| `AppEngineFacts.AmplificationOfCopyNumber` | app.py:211-229 | an amplification whose detail is `str(n)` scores `min(0.7, 0.3+(n-2)*0.05)` and names n in its clinical text |
| `AppEngineFacts.UnparsableAmplification` | app.py:213-216 | a copy number that does not parse falls back to 6 copies: score 0.5 and a "6x" clinical text |
| `AppEngineFacts.AmplificationScenarios` | app.py:211-218 | the example amplification "8" scores 0.6, "4" scores 0.4, and "xx" scores 0.5 like 6 copies |
| `AppEngineFacts.SingleDigitCopyNumber` | app.py:214-218 | a one-digit copy number is parsed to its value |
| `AppEngineFacts.UnknownFallback` | app.py:231-242 | a detail outside the knowledge base that is not an amplification is unknown: score 0.5, pathway "Unknown", its type and detail in the mechanism text |
| `AppEngineFacts.ScoreAtMost80` | app.py:189-194 | no classification scores above 0.8 |
| `AppEngineFacts.ClassRecommendationsAll` | app.py:249-258 | one recommendation per drug of a class, in order, each carrying that class's efficacy, name, mechanism and the kind's rationale |
| `AppEngineFacts.RecommendationsListing` | app.py:248-258 | the seven recommendations are Gefitinib, Erlotinib, Afatinib, Dacomitinib, Osimertinib, Cetuximab, Panitumumab, under their classes |
| `AppEngineFacts.EfficaciesOf` | app.py:248-258 | the seven efficacies are the four class efficacies, repeated per drug of each class |
| `AppEngineFacts.T790MOutcome` | app.py:262-280 | T790M: Low for the four 1st/2nd-generation drugs (resistant list) and for Osimertinib (effective list, but score 0.8), Medium for both antibodies |
| `AppEngineFacts.Del19Outcome` | app.py:262-280 | Del19: High for the 1st/2nd-generation drugs and Osimertinib, Medium for both antibodies |
| `AppEngineFacts.L858ROutcome` | app.py:266-272 | L858R (score 0.3): Medium for every drug, never High |
| `AppEngineFacts.G719XOutcome` | app.py:266-280 | G719X (score 0.4): Medium for every drug |
| `AppEngineFacts.Exon20InsOutcome` | app.py:274-280 | "Exon 20 ins": Low for the 1st generation (resistant list), Medium for the others |
| `AppEngineFacts.EightCopiesOutcome` | app.py:277-278 | eight copies: "8" occurs inside "L858R", so every TKI takes the effective branch at score 0.6 and is Low; both antibodies are High |
| `AppEngineFacts.FourCopiesOutcome` | app.py:277-278 | four copies: Medium for the TKIs and High for the antibodies |
| `AppEngineFacts.RecommendationsUniform` | app.py:282-291 | every mutation gets exactly seven recommendations, none rated "None", each with the rationale of its kind |
| `AppSession.AnalysesOf` | app.py:605-611 | the analyses of a list of descriptors: one per descriptor, in order |
| `AppSession.AnalysesOfSnoc` | app.py:533-537 | appending a descriptor appends exactly its analysis to the analyses, so the two lists stay parallel |
| `AppSession.Session.Append` | app.py:533-537 | one step of every input path: the descriptor is appended to the mutations and its analysis to the results, and the lists stay parallel |
| `AppSession.RowToMutation` | app.py:655-660 | a CSV row's type defaults to "Point Mutation", its detail is the 'mutation' column, else 'detail', else empty, its exon defaults to "Unknown" |
| `AppSession.RowsToMutations` | app.py:654-661 | one descriptor per CSV row, in row order |
| `AppSession.Session.constructor` | app.py:94-97 | the session starts with both lists empty |
| `AppSession.Session.Clear` | app.py:445-447 | "Clear All Data" empties both lists |
| `AppSession.Session.AddManual` | app.py:526-537 | an empty detail changes nothing; otherwise the descriptor and its analysis are appended, one to each list |
| `AppSession.Session.Load` | app.py:601-611 | after clearing and appending, the lists are the given descriptors and their analyses, element by element |
| `AppSession.Session.LoadExample` | app.py:594-611 | loading an example case leaves exactly that case's descriptors and their analyses |
| `AppSession.Session.ProcessCsv` | app.py:650-668 | processing a CSV file leaves exactly its rows' descriptors and their analyses |
| `AppSummary.ScoreSumBounds` | app.py:689 | scores within [lo, hi] sum to within [lo*n, hi*n] |
| `AppSummary.OverallRiskOfUniformScores` | app.py:699 | when every score is above 0.6 (in (0.3, 0.6], at most 0.3) the overall risk is High (Medium, Low) |
| `AppSummary.CardCounts` | app.py:710-719 | the red cards are exactly the "High Resistance Cases" metric, and red, amber and green cards together number the results |
| `AppSummary.CollectRecommendations` | app.py:775-777 | `all_drugs` is every result's recommendations in order, as many as all lists together |
| `AppSummary.SessionRecommendationsRated` | app.py:786 | recommendations the engine produced never carry "None", so the tally's `drug['efficacy'].lower()` key always exists |
| `AppSummary.AcquiredResistanceSummary` | app.py:565-568 | the acquired-resistance example has scores 0.3 and 0.8, mean 0.55, Medium overall risk, one high-resistance case, and no drug rated High |
| `AppSummary.NoHighFor` | app.py:266-275 | no drug is rated High for L858R or T790M, whatever their type |
| `AppSummary.PathwayMarks` | app.py:340-346 | each of the app's twelve nodes is highlighted exactly when an affected pathway and its name occur one in the other, and is then drawn 15 larger |
| `Pathways.AffectedSetMembers` | visualizer.py:46-48 | a pathway is in the union exactly when some result lists it |
| `Pathways.AffectedPathways` | app.py:312-314 | the `set.update` loop yields exactly the pathways some result lists |
| `Pathways.MarkNodes` | app.py:341-346 | every node keeps its name, is highlighted by the substring rule, and grows by the boost exactly when highlighted |
| `Pathways.HighlightMonotone` | visualizer.py:53-54 | more affected pathways never switch a highlight off |
| `Pathways.HighlightSelf` | visualizer.py:53-54 | a pathway equal to a node's name highlights it |
| `Pathways.StandardPathwaysHighlight` | visualizer.py:51-57 | with MAPK/ERK and PI3K/AKT affected, exactly ERK, PI3K and AKT are highlighted |
| `Pathways.UnknownHighlightsNothing` | visualizer.py:53-54 | the pathway "Unknown" highlights no node |
| `DrugTally.Find` | app.py:784 | the lookup finds the first row with the key, or reports that none has it |
| `DrugTally.DrugSummary` | app.py:781-787 | the tally loop produces the rows defined entry by entry |
| `DrugTally.CountShape` | app.py:783-787 | counting one entry bumps the one row with its key, or appends a new row for it; keys of existing rows are unchanged |
| `DrugTally.TallyKeysDistinct` | app.py:784-785 | no key has two rows |
| `DrugTally.TallyKeysCover` | app.py:782-785 | every recommendation's key has a row |
| `DrugTally.TallyKeysFromEntries` | app.py:782-785 | every row's key is some recommendation's key |
| `DrugTally.TallyCounts` | app.py:781-787 | each row holds the number of recommendations with its key, in total and per efficacy |
| `DrugTally.TallyRowsConsistent` | app.py:786-787 | in each row high + medium + low = total |
| `DrugTally.TallyTotalsSum` | app.py:787 | the totals of all rows add up to the number of recommendations |
| `LogicEngine.ClassifyAmplification` | logic.py:67-84 | the amplification succeeds exactly when the detail parses as an integer n and n - 2 converts to a float; it then has kind amplification and a score of at most 0.7 |
| `LogicEngine.CalculateDrugEfficacy` | logic.py:220-241 | never "None"; an effective-list match of the class rates by score; otherwise a resistant-list match gives Low; a class other than 'Monoclonal_Antibody' with no list match gets Medium |
| `LogicEngine.GenerateDrugRecommendations` | logic.py:197-218 | the nested loop yields exactly the recommendation list defined class by class, drug by drug |
| `LogicEngine.RecommendationsLoop` | logic.py:202-216 | over any list of classes, the loop yields one recommendation per drug, class after class |
| `LogicEngine.OutcomesAt` | logic.py:168-183 | the outcome at position k is the analysis of descriptor k |
| `LogicEngine.AnalyzeOne` | logic.py:170-193 | one loop step computes the record of one descriptor |
| `LogicEngine.CollectAnalyses` | logic.py:166-195 | given each descriptor's outcome, the loop appends one record per descriptor in order and stops at the first failure, yielding exactly the collected outcomes |
| `LogicEngine.AnalyzeMutations` | logic.py:164-195 | the loop yields the first failure if some descriptor raises, else one record per descriptor in order |
| `LogicFacts.KnowledgeBaseForPointMutationsOnly` | logic.py:56-65 | a known detail gets its entry as a "Point Mutation"; under any type outside the four named ones it is unknown |
| `LogicFacts.DeletionTypedL858R` | logic.py:62-63 | "L858R" typed as a deletion is a structural deletion scoring 0.4, where the app engine scores it 0.3 |
| `LogicFacts.ClassifyFailsOnlyOnBadCopyNumber` | logic.py:67-74 | classification raises exactly for an amplification whose detail is not an integer or whose copy number minus two is too large for a float |
| `LogicFacts.AmplificationScoreShape` | logic.py:71-74 | the score is 0.7 from six copies on, `0.3 + (n-2)*0.05` (at most 0.45) below, never above 0.7, and never decreasing in n |
| `LogicFacts.AmplificationScoreVersusApp` | logic.py:71-74 | the logic engine's amplification score is never below the app's, and equals it exactly below 6 copies or from 10 on |
| `LogicFacts.AmplificationOfCopyNumber` | logic.py:67-84 | an amplification with detail `str(n)` raises OverflowError exactly when n - 2 does not fit a float; otherwise it succeeds with the score for n and names n in its clinical text |
| `LogicFacts.AmplificationScenarios` | logic.py:69-74 | "8" scores 0.7, "4" scores 0.4, and "xx" raises |
| `LogicFacts.SingleDigitCopyNumber` | logic.py:69-74 | a one-digit copy number is parsed to its value and scored by it |
| `LogicFacts.CopyNumberFloatBounds` | logic.py:71-74 | copy number 2^1024 - 2^970 + 1 still scores 0.7 and the next one raises; below zero, 3 - (2^1024 - 2^970) still scores and the next one down raises |
| `LogicFacts.InsertionRule` | logic.py:86-99 | an insertion is a resistance mutation scoring 0.75 exactly when its detail contains "Exon 20"; otherwise it is unknown, typed "Insertion" |
| `LogicFacts.DeletionRule` | logic.py:101-114 | a deletion is the Del19 entry exactly when its detail contains "Del19" or "Exon 19"; otherwise it is structural, scoring 0.4 |
| `LogicFacts.InsertionAndDeletionScenarios` | logic.py:86-114 | "Exon 20 ins" scores 0.75, "Del19" is the Del19 entry, and "E746_A750del" is a structural deletion scoring 0.4 |
| `LogicFacts.UnknownFallback` | logic.py:116-126 | any other type, or a point mutation outside the knowledge base, is unknown: score 0.5, pathway "Unknown", type and detail in the mechanism text |
| `LogicFacts.ScoreAtMost80` | logic.py:54-65 | no classification scores above 0.8 |
| `LogicFacts.TextsStartWithNonSpace` | logic.py:54-65 | every classification's mechanism and clinical text start with a visible character |
| `LogicFacts.ClassRecommendationsAll` | logic.py:203-216 | one recommendation per drug of a class, in order, with the class's title-cased label, its efficacy and the kind's rationale |
| `LogicFacts.RecommendationsListing` | logic.py:202-216 | the seven recommendations name the same seven drugs as the app, under the labels "1St Gen Tki", "2Nd Gen Tki", "3Rd Gen Tki" and "Monoclonal Antibody" |
| `LogicFacts.LabelsAreTitleCasedKeys` | logic.py:211 | each class label is its key with '_' replaced by a space and title-cased, which turns "1st" into "1St" |
| `LogicFacts.LabelOf` | logic.py:211 | a key whose replaced and title-cased spellings are given character by character has that label |
| `LogicFacts.RecommendationsUniform` | logic.py:243-252 | every mutation gets seven recommendations in declaration order, none rated "None", each with its kind's rationale and no mechanism field |
| `LogicFacts.EfficaciesOf` | logic.py:202-216 | the seven efficacies are the four class efficacies, repeated per drug of each class |
| `LogicFacts.T790MOutcome` | logic.py:220-241 | T790M: Low for the five TKIs, Medium for both antibodies |
| `LogicFacts.Exon20InsOutcome` | logic.py:220-241 | "Exon 20 ins": Low for the 1st and 2nd generations (the latter through "Exon 20 ins (limited)" with score 0.75), Medium for the rest |
| `LogicFacts.Del19Outcome` | logic.py:220-241 | Del19: High for the five TKIs, including Osimertinib through "Del19+T790M", Medium for both antibodies |
| `LogicFacts.EightCopiesOutcome` | logic.py:238-239 | eight copies: Low for the TKIs and High for both antibodies |
| `LogicFacts.StripFramedText` | logic.py:256-272 | stripping a template that puts a visible text between the indented line breaks leaves the text itself |
| `LogicFacts.ClinicalDetailText` | logic.py:263-272 | the clinical detail is the original clinical text followed by the blank line, the score line and the explanation, so it begins with the original text |
| `LogicFacts.MechanismDetailText` | logic.py:256-271 | the detailed mechanism is the mechanism followed by the pathway-impact sentence and the explanation, so it begins with the mechanism |
| `LogicFacts.AnalyzeRecord` | logic.py:185-193 | a record keeps the descriptor and the classification's other fields, adds the recommendations and the detailed mechanism, and replaces the clinical text by one that begins with it |
| `LogicFacts.CollectSuccess` | logic.py:166-195 | the list of outcomes succeeds exactly when every outcome does, and then holds their records in order |
| `LogicFacts.CollectFailure` | logic.py:168-173 | a failing list of outcomes fails with the error of its first failing outcome, all before it having succeeded |
| `LogicFacts.AnalyzeAllResults` | logic.py:164-195 | analysis raises exactly when some amplification detail is not an integer or is a copy number too large for a float; otherwise there is one record per descriptor, in order, each carrying its descriptor |
| `Visualizer.PathwayDiagram` | visualizer.py:41-57 | each of the visualizer's twelve nodes is highlighted exactly when an affected pathway and its name occur one in the other, and is then drawn 10 larger |
| `Visualizer.Landscape` | visualizer.py:93-106 | x is 0..n-1, y is each result's score, and the labels and types are each result's detail and type, in result order |
| `Visualizer.DrugNameSetMembers` | visualizer.py:131-137 | a drug is a column exactly when some result recommends it |
| `Visualizer.CollectDrugNames` | visualizer.py:131-137 | the first loop collects the row labels in order and the set of all recommended drug names |
| `Visualizer.ListOf` | visualizer.py:141 | `list(all_drugs)` lists each element of the set exactly once |
| `Visualizer.NameMapLaterWins` | visualizer.py:145-146 | the per-result dictionary holds exactly the recommended names, each with the efficacy of its last recommendation |
| `Visualizer.CellValue` | visualizer.py:148-160 | a cell is 0 for a drug the result does not recommend, otherwise the code of its last recommendation's efficacy; it is at most 3 and positive exactly for a rated efficacy |
| `Visualizer.HeatmapRow` | visualizer.py:148-160 | one cell per column, each the efficacy code of that drug in the result's dictionary |
| `Visualizer.Heatmap` | visualizer.py:128-161 | the columns are the distinct recommended drugs, the rows the results in order, and each cell the code of that result's efficacy for that drug |
| `Visualizer.ColumnsRecommended` | visualizer.py:134-141 | every column's drug is recommended for at least one result |
| `Report.Truncate` | report_generator.py:131 | a rationale of at most 50 characters is kept; a longer one becomes its first 50 characters followed by "...", 53 in all |
| `Report.TruncateIdempotent` | report_generator.py:131 | truncating a truncated rationale changes nothing |
| `Report.DrugTable` | report_generator.py:121-135 | the table data is the header row followed by one row per recommendation, result by result; 1 + the number of recommendations rows |
| `Report.DrugTableRowAt` | report_generator.py:124-135 | the row of recommendation j of result i follows the header and the rows of the results before i, and copies name, class and efficacy, with the rationale truncated |
| `Report.ExecutiveSummaryText` | report_generator.py:111-119 | stripping removes exactly the template's framing: the summary runs from "This report analyzes" to the final full stop |
| `Report.CountsReport` | report_generator.py:108-113 | the two numbers in the summary read back as the number of results and the number of results scoring above 0.7 |

## Left out

- The Streamlit page is not modelled: widgets, CSS, forms, `st.rerun`, success and error messages, file upload and the file preview. The parsing done by `pd.read_csv` is also out. A CSV file is given as its rows, each a column-to-text map.
- Figure construction is not modelled: Plotly and networkx figures, colours, coordinates, the edges, layouts, the landscape marker sizes and colour scales. The resistance chart's bar colours are out too, though they use the card bands of `AppSummary.CardRisk`.
- The reportlab side of the report is not modelled: styles, paragraphs, table styles, column widths, references, `doc.build` and the byte buffer.
- Timestamps (`datetime.now()`) are not modelled. They are only stored beside each descriptor.
- Floating point is not modelled. Scores are exact hundredths. For every copy number n with n - 2 of magnitude below 2^1024 - 2^970, where the float exists, each single score falls on the same side as the float at every test made on one score: the ladder's `< 0.3` and `< 0.6`, the cards' `> 0.4` and `> 0.7`, and the high-resistance count's `> 0.7`. The `:.2f` score in the clinical text is formatted from hundredths. It matches Python's text for every copy number from -3000 to 3000 except -4, where `0.3 + (-6) * 0.05` is -5.55e-17 and prints "-0.00" where the model prints "0.00". Negative copy numbers of about 10^15 and below print the float's rounding error, such as "-50000000000000.01" where the model prints "-50000000000000.00".
- `AppEngineFacts.AmplificationOfCopyNumber`, `AppEngine.AnalyzeAmplification`: the app engine's `OverflowError` is not modelled. A copy number n with n - 2 of magnitude 2^1024 - 2^970 or more raises at app.py:218, outside the `try` of app.py:213-216, and the model scores it instead. The app engine returns a record, not a `Result`, so this raise has no place in it. In the logic engine the same raise is modelled (`LogicEngine.ClassifyAmplification`, `LogicFacts.CopyNumberFloatBounds`).
- `AppSession.Session.Append`, `AppSession.Session.AddManual`, `AppSession.Session.ProcessCsv`: app.py:533-536 and 661-663 append the descriptor before analysing it. A copy number that raises at app.py:218 therefore leaves the mutations list one longer than the results, which the model's parallel lists do not show.
- `LogicFacts.ClassifyFailsOnlyOnBadCopyNumber`, `LogicEngine.ClassifyAmplification`, `LogicFacts.AnalyzeAllResults`, `LogicFacts.AmplificationOfCopyNumber`, `AppEngineFacts.AmplificationOfCopyNumber`: CPython's limit on `int()` of more than 4300 digits (3.11 and later, and its backports) is not modelled, since it depends on the Python version and its settings. Under that limit, the app falls back to 6 copies (score 0.5, "6x") for a longer detail where the model reads its digits. app.py:278 raises on such an all-digit detail for the antibody class, where the model rates it. In the logic engine, the raise differs from the model's only for a detail padded with leading zeros, since any longer number is already too large for a float.
- `AppSummary.OverallRisk`: the mean of `np.mean` is compared as an exact sum against threshold × count, which differs from the float comparison at exact ties. The float for 8 copies is 0.6000000000000001, so the app's "High Amplification Case" example shows High where the model gives Medium. G719X with T790M (float mean 0.6000000000000001) also shows High where the model gives Medium. Del19 with G719X (float mean 0.30000000000000004) shows Medium where the model gives Low. Only means of exactly 0.3 or 0.6 are affected.
- Details are strings, as the engines' signatures declare. The non-string branches of logic.py are not modelled. Line 69 truncates a float detail (8.7 gives 8 copies) and gives 6 copies for any other non-string type. Lines 88 and 103 raise `TypeError` on a non-string detail.
- `int()` is modelled only as an optional sign followed by ASCII digits. Surrounding whitespace, underscores and non-ASCII digits are not accepted.
- `str.isdigit`, `.lower()` and `.title()` are ASCII only.
- `.strip()` covers ASCII whitespace and the separators U+001C to U+001F, not other Unicode spaces.
- `AppSession.RowToMutation`: an empty cell in a present column, which pandas reads as NaN and `str()` turns into "nan", is not modelled. The model distinguishes only absent and present columns.
- The example-case dictionaries are shared, and the app adds a timestamp to them in place. That aliasing is not modelled.
- `AppSummary.OverallRisk` requires at least one result. The results page is only shown when there are results (app.py:465-466).
- `DrugTally.DrugSummary` requires every recommendation to be rated. A "None" efficacy would raise `KeyError` in the source. `AppSummary.SessionRecommendationsRated` proves that the engine never produces one.
- `AppSession.Session.LoadExample` requires the title to be one of the example cases. The select box offers nothing else.
- `LogicEngine.DrugClass` stores each class's displayed label next to its key. `LogicFacts.LabelsAreTitleCasedKeys` proves that label equal to `key.replace('_', ' ').title()`.
- `Visualizer.ListOf`: the order of `list(set)` is left open. The model proves only that each drug appears once.
- Visualizer efficacy strings: other than "High", "Medium" and "Low", only "None" is modelled. It is the only other value the engines produce.
- The CSV export and "Copy Summary" texts (app.py:808-842) are formatting only and are not modelled. Nor are the display strings of the detailed-analysis cards.
- data_loader.py is not part of this model. It only returns static literals, and nothing in the modelled code calls it.
