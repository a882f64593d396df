# SecureChain audit report generator, modelled in Dafny

This project models the report engine of SecureChain (`SecureChain/src/report/generator.rs`).
The engine takes the results of a smart-contract security analysis and builds a
comprehensive audit report, then renders it as Markdown, HTML, JSON or "PDF". Building
the report has these parts:

- the vulnerability analysis: three count maps, by category, by severity and by tool;
- the executive summary: a risk level by strict precedence, at most five key findings, and the first three free-text recommendations;
- the recommendations: one per distinct category in order of first occurrence, then one per free-text string with ids `REC-100`, `REC-101`, …;
- the technical details and two fixed appendices;
- a summary placeholder, used when the caller switches the summary off.

The modules follow the stages of the engine:

| module | file | contents |
|---|---|---|
| `Wrappers` | wrappers.dfy | `Option`, `Result` |
| `Text` | text.dfy | decimal rendering of naturals, zero padding, `join`, concatenation of pushed parts |
| `Model` | model.dfy | the records of the report (findings, metrics, summary, recommendation, appendix, report) |
| `Aggregation` | aggregation.dfy | the counting loop, the severity groups and their sums |
| `Summary` | summary.dfy | the risk level and the key findings |
| `Recommendations` | recommendations.dfy | the category table and the de-duplicating loop |
| `Assembly` | assembly.dfy | the assembled report, with the summary on or off |
| `Render` | render.dfy | the Markdown buffer, the HTML/PDF wrappers, the format dispatch |

The imperative parts of the source are Dafny methods with loops: counting, de-duplicating
recommendations, collecting key findings, pushing appendices, bucketing findings and pushing
text onto the Markdown buffer. Each such method is proved equal to a function that describes
its result, and the properties are proved about those functions. A Rust `&mut String`
buffer is modelled as a string passed in and returned extended (`out == buffer + …`).

Some values are not computed by the model:

- floating-point values (`confidence`, `security_score`, `complexity_score`, `analysis_duration`, and the mock coverage 85.0) are carried as `F64(fixed2)`, the text the `{:.2}` format produces;
- the report id, the generation time (already formatted as `%Y-%m-%d %H:%M:%S UTC`) and the crate version come in as a `Provenance` value;
- the JSON serializer is a function parameter `toJson` of the dispatcher.

Two decisions of the code that the model follows:

- The HTML page puts the Markdown into `<pre>` without HTML escaping. `Render.HtmlEmbedsMarkdown` proves that the Markdown occurs unchanged between `<pre>` and `</pre>`.
- Every category variant is keyed by its own Debug name (`"Reentrancy"`, …, `"Other"`); no variant is folded into a catch-all bucket when the findings are counted. `Model.CategoryNameInjective` shows that two findings share a key exactly when they share a category. The category enum is declared in `SecureChain/src/report/vulnerability.rs`, which is not part of this model.

## Model

| member | source | states |
|---|---|---|
| Model.CategoryNameInjective | SecureChain/src/report/generator.rs:222-223 | the Debug label used as a category key identifies the category: equal labels only for equal categories |
| Aggregation.CreateVulnerabilityAnalysis | SecureChain/src/report/generator.rs:215-238 | the counting loop returns the findings unchanged and the three count maps that `Tally` describes for category, severity and tool |
| Aggregation.TallyCounts | SecureChain/src/report/generator.rs:220-230 | the count stored under a key equals the number of findings whose facet (category label, severity or tool) is that key |
| Aggregation.TallyKeys | SecureChain/src/report/generator.rs:220-230 | a key is present in a count map exactly when some finding has it, so no zero entries exist |
| Aggregation.SeverityKeysVerbatim | SecureChain/src/report/generator.rs:225-226 | the severity map is keyed by the severity strings exactly as the findings carry them |
| Aggregation.TallyConservation | SecureChain/src/report/generator.rs:215-238 | the counts of each of the three maps sum to the number of findings |
| Aggregation.WithSeverityCount | SecureChain/src/report/generator.rs:379-387 | a severity filter holds exactly the findings of that severity, and as many as the severity map counts |
| Aggregation.WithSeverityEmpty | SecureChain/src/report/generator.rs:379-387 | a severity filter is empty exactly when no finding has that severity |
| Aggregation.WithSeverityAppend | SecureChain/src/report/generator.rs:443-457 | filtering distributes over concatenation, so each group keeps input order |
| Aggregation.UnrankedMembers | SecureChain/src/report/generator.rs:449-456 | the "Informational" group holds exactly the findings whose severity is none of Critical, High, Medium, Low |
| Aggregation.KeysMember | SecureChain/src/report/generator.rs:220-230 | a key occurs among the findings' keys exactly when some finding has it |
| Aggregation.GroupMultiplicity | SecureChain/src/report/generator.rs:443-457 | each finding value occurs in the input as often as in the five groups together |
| Aggregation.SeverityGroupsPartition | SecureChain/src/report/generator.rs:443-457 | the five groups together are a permutation (as multisets) of the findings: each finding lands in exactly one group |
| Aggregation.SeverityGroupsSize | SecureChain/src/report/generator.rs:443-457 | the group sizes add up to the number of findings |
| Summary.RiskLevel | SecureChain/src/report/generator.rs:190-196 | each of the five levels holds exactly when the strict precedence Critical > High > Medium > Low > Minimal selects it |
| Summary.RiskLevelOfFindings | SecureChain/src/report/generator.rs:185-196 | over a real analysis: "Critical" exactly when some finding is Critical, "Minimal" exactly when no finding has a ranked severity |
| Summary.PositiveCountIffPresent | SecureChain/src/report/generator.rs:185-188 | a severity's looked-up count is positive exactly when some finding has it (`unwrap_or(&0)` for absent keys) |
| Summary.ExtractKeyFindings | SecureChain/src/report/generator.rs:376-405 | the two pushing loops and the fallback produce `KeyFindings` |
| Summary.KeyFindingsBounded | SecureChain/src/report/generator.rs:391-403 | the list has between one and five entries |
| Summary.MarkedIsNotSentinel | SecureChain/src/report/generator.rs:391-402 | no Critical or High entry equals the fallback sentence |
| Summary.KeyFindingsSentinel | SecureChain/src/report/generator.rs:400-402 | the list is just the fallback sentence exactly when no finding is Critical or High |
| Summary.KeyFindingsCount | SecureChain/src/report/generator.rs:391-398 | otherwise it has min(3, critical count) + min(2, high count) entries |
| Summary.KeyFindingsEntries | SecureChain/src/report/generator.rs:391-398 | the entries name the first three Critical findings, then the first two High findings, in input order |
| Summary.CreateExecutiveSummary | SecureChain/src/report/generator.rs:184-211 | total is the number of findings, the score is copied, the four counts are looked up in the severity map, and the summary lists the first three recommendation strings |
| Recommendations.GuidanceFor | SecureChain/src/report/generator.rs:281-327 | the generic guidance (REC-999, Medium/Medium/Medium, "Address <label> Issues") applies exactly to the untabulated categories, and priority is High exactly for Reentrancy and AccessControl |
| Recommendations.TabulatedIdsDistinct | SecureChain/src/report/generator.rs:281-317 | the four tabulated categories have four different ids |
| Recommendations.CategoryRecommendation | SecureChain/src/report/generator.rs:274-327 | the id, title, description, priority, effort and impact are the table row of the category; the related list holds exactly the ids of the findings of that category, as many as the category breakdown counts for its label |
| Recommendations.RelatedIdsCount | SecureChain/src/report/generator.rs:275-279 | the related list is as long as the category's count in the category breakdown |
| Recommendations.RelatedIdsMembers | SecureChain/src/report/generator.rs:275-279 | an id is related exactly when some finding of the category carries it |
| Recommendations.FirstIndex | SecureChain/src/report/generator.rs:247-254 | the position of the first finding of a category that occurs |
| Recommendations.DistinctCategoriesCover | SecureChain/src/report/generator.rs:247-254 | every category that occurs gets a recommendation, and only those |
| Recommendations.DistinctCategoriesUnique | SecureChain/src/report/generator.rs:247-254 | no category gets two recommendations |
| Recommendations.DistinctCategoriesOrder | SecureChain/src/report/generator.rs:247-254 | category recommendations come in order of each category's first occurrence |
| Recommendations.NameSetMember | SecureChain/src/report/generator.rs:248-250 | the set of processed labels records exactly the categories already handled |
| Recommendations.GeneralRecommendation | SecureChain/src/report/generator.rs:258-269 | a general recommendation describes its string, is Medium/Medium/Medium, and has no related findings |
| Recommendations.GeneralIdUnpadded | SecureChain/src/report/generator.rs:260 | `{:03}` of i + 100 adds no padding, and the digits read back as i + 100 |
| Recommendations.GeneralIdsDistinct | SecureChain/src/report/generator.rs:260 | different positions get different general ids |
| Recommendations.CreateRecommendations | SecureChain/src/report/generator.rs:241-271 | the two loops, with their processed-label set, produce `RecommendationsOf` |
| Recommendations.AddCategoryRecommendations | SecureChain/src/report/generator.rs:244-255 | the first loop, guarded by the set of processed labels, pushes one recommendation per distinct category, in order of first occurrence |
| Recommendations.AddGeneralRecommendations | SecureChain/src/report/generator.rs:258-269 | the second loop appends one general recommendation per string, in order |
| Recommendations.RecommendationsCount | SecureChain/src/report/generator.rs:241-271 | the list length is the number of distinct categories plus the number of strings |
| Recommendations.CategoryPart | SecureChain/src/report/generator.rs:247-254 | the k-th recommendation is the category recommendation (table row and related ids) of the k-th distinct category |
| Recommendations.GeneralPart | SecureChain/src/report/generator.rs:258-269 | after the category part, the i-th entry is the general recommendation of the i-th string |
| Recommendations.FindingListedUnderOwnCategory | SecureChain/src/report/generator.rs:247-254 | every finding's id is related to the recommendation of its own category |
| Assembly.MetadataOf | SecureChain/src/report/generator.rs:172-181 | id, time and version come from the environment, the contract name and tool list from the analysis, and the type is "Security Audit Report" |
| Assembly.MetadataIgnoresFindings | SecureChain/src/report/generator.rs:172-181 | two analyses with the same contract name and tool list get the same metadata |
| Assembly.TechnicalDetailsOf | SecureChain/src/report/generator.rs:331-349 | the metrics and duration are kept, coverage counts come from the metrics, and the configuration map has exactly the keys slither and mythril |
| Assembly.CreateAppendices | SecureChain/src/report/generator.rs:352-373 | two appendices, of type "configuration" and then "metrics" |
| Assembly.PlaceholderSummary | SecureChain/src/report/generator.rs:147-159 | "Not Calculated", four zero counts, the real total, the copied score and empty lists |
| Assembly.CreateComprehensiveReport | SecureChain/src/report/generator.rs:138-169 | the report is assembled from the parts, and the summary is computed only when requested |
| Assembly.SummaryDisabled | SecureChain/src/report/generator.rs:145-159 | with the flag off the stored summary is the placeholder, whatever the findings |
| Assembly.SummaryFlagOnlyAffectsSummary | SecureChain/src/report/generator.rs:138-169 | the flag changes no part of the report other than the summary |
| Assembly.ReportCountsAgree | SecureChain/src/report/generator.rs:138-169 | the three count maps each sum to the summary's total; there are as many recommendations as distinct categories plus strings |
| Assembly.SummaryEnabled | SecureChain/src/report/generator.rs:145-147 | with the flag on, the counts are the severity-group sizes, the risk level follows the findings, and the key findings are `KeyFindings` |
| Render.AppendBullets | SecureChain/src/report/generator.rs:433-435 | the loop pushes one `- item` line per item |
| Render.AppendFinding | SecureChain/src/report/generator.rs:502-532 | pushes one finding block; the line, code, recommendation and references entries appear only when present |
| Render.AppendReferences | SecureChain/src/report/generator.rs:523-529 | pushes the references heading, one line per reference and a blank line |
| Render.AddVulnerabilitySection | SecureChain/src/report/generator.rs:495-535 | appends `SectionText`: nothing for an empty group, otherwise a heading and the findings numbered from 1 |
| Render.GroupBySeverity | SecureChain/src/report/generator.rs:443-457 | the bucketing loop yields the four severity filters and the "Informational" rest |
| Render.AppendAnalysis | SecureChain/src/report/generator.rs:440-463 | pushes the analysis heading and the five sections in fixed order |
| Render.AppendKeyFindings | SecureChain/src/report/generator.rs:430-438 | pushes the key findings list, or nothing when there are none |
| Render.AppendRecommendations | SecureChain/src/report/generator.rs:466-473 | pushes a numbered block per recommendation |
| Render.AppendAppendices | SecureChain/src/report/generator.rs:482-490 | pushes the appendices, or nothing when there are none |
| Render.GenerateMarkdownReport | SecureChain/src/report/generator.rs:408-492 | the buffer ends up holding `MarkdownOf(report)` |
| Render.GenerateHtmlReport | SecureChain/src/report/generator.rs:538-569 | the HTML is the fixed page around the report's Markdown |
| Render.GeneratePdfReport | SecureChain/src/report/generator.rs:578-582 | the PDF output is exactly the HTML output |
| Render.GenerateComprehensiveReport | SecureChain/src/report/generator.rs:102-122 | assembles the report and renders it in the selected format |
| Render.FormatDispatch | SecureChain/src/report/generator.rs:115-121 | any selector other than markdown, html, json, pdf yields `Unsupported report format: <selector>`; the three text formats always succeed; json returns the serializer's result |
| Render.HtmlEmbedsMarkdown | SecureChain/src/report/generator.rs:542-565 | the Markdown appears verbatim, unescaped, directly between `<pre>` and `</pre>` |
| Render.SectionEmptyIffNoFindings | SecureChain/src/report/generator.rs:496-498 | a section appends nothing exactly when its group is empty |
| Render.SectionListsFinding | SecureChain/src/report/generator.rs:502-503 | the k-th finding of a group is rendered in its section with label initial.(k+1), between the findings before and after it |
| Render.FindingInOneGroup | SecureChain/src/report/generator.rs:449-457 | each finding appears under exactly one of the five section labels, the one its severity selects |
| Render.AnalysisRendersGroups | SecureChain/src/report/generator.rs:459-463 | the analysis part is the five sections in the order Critical, High, Medium, Low, Informational |
| Render.KeyFindingsOmittedIffEmpty | SecureChain/src/report/generator.rs:431 | the key findings block is empty exactly when there are no key findings |
| Render.AppendicesOmittedIffEmpty | SecureChain/src/report/generator.rs:483 | the appendices block is empty exactly when there are no appendices |
| Render.BulletsListItem | SecureChain/src/report/generator.rs:433-435 | each item gets its own `- item` line, in order |
| Text.NatToString | SecureChain/src/report/generator.rs:260 | decimal rendering gives a non-empty string of digits |
| Text.NatToStringRoundTrip | SecureChain/src/report/generator.rs:260 | reading the digits back gives the number |
| Text.NatToStringInjective | SecureChain/src/report/generator.rs:260 | different numbers render differently |
| Text.ConcatParts | SecureChain/src/report/generator.rs:408-492 | every part pushed onto the buffer appears between the parts before and after it |
| Text.JoinPartAt | SecureChain/src/report/generator.rs:358 | `join(", ")` keeps every tool name, in order, each at its offset after the names before it and their separators |
| Text.JoinSeparatorAt | SecureChain/src/report/generator.rs:416 | exactly one separator stands between consecutive names |
| Text.JoinOffsetStep | SecureChain/src/report/generator.rs:416 | each name starts right after the previous name and one separator |

## Left out

- `load_analysis_results` (lines 131-135) reads a file and deserialises it with serde_json. The model starts from the decoded `AnalysisResults`.
- `generate_json_report` (lines 572-575) calls `serde_json::to_string_pretty`, a foreign serializer. It is the function parameter `toJson` of `Render.Rendered` and `Render.GenerateComprehensiveReport`.
- The `async` wrapper of `generate_comprehensive_report` is not modelled. Its synchronous body after loading is `Render.GenerateComprehensiveReport`.
- `uuid::Uuid::new_v4()`, `Utc::now()` and `env!("CARGO_PKG_VERSION")` (lines 174-176) and the chrono formatting of the time (line 414) are non-deterministic or external. They enter through `Assembly.Provenance`, whose time is already the formatted text.
- Floating-point values and their `{:.2}` rendering are not computed. Each is carried as the rendered text, with no numeric reasoning.
- HashMap iteration order is not modelled. The count maps and the configuration map are Dafny `map`s, which have no order.
- The `Config` field of `ReportGenerator` is stored but never read. The generator's methods do not change its state, so the model has no class for it.
- `generate_markdown_report` is defined twice in the same `impl` block: a results-level wrapper at lines 125-128 and the report-level renderer at line 408. Rust rejects two inherent methods of one name, so the file as shown does not compile; the wrapper would also pass a report where results are expected. The model takes the report-level renderer at line 408, which the dispatch at line 116 evidently means, and leaves the wrapper out.
- `SecureChain/src/main_simple.rs` prints a banner and help text and sets up logging. It is not part of this model.
