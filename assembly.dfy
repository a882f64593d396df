/** The report assembler (`create_comprehensive_report` and the parts it
    composes): metadata, executive summary (or its placeholder), analysis,
    recommendations, technical details and the two fixed appendices. */
module Assembly {
  import opened Text
  import opened Model
  import opened Aggregation
  import opened Summary
  import opened Recommendations

  /** What the source draws from its environment when it assembles a report:
      a fresh UUID, the current time and the crate version. */
  datatype Provenance = Provenance(reportId: string, generatedAt: Timestamp, version: string)

  const ReportType: string := "Security Audit Report"

  /** `create_report_metadata`. */
  function MetadataOf(results: AnalysisResults, env: Provenance): (m: ReportMetadata)
    ensures m.reportId == env.reportId && m.generatedAt == env.generatedAt && m.version == env.version
    ensures m.contractName == results.contractName && m.analysisTools == results.analysisSummary.toolsUsed
    ensures m.reportType == "Security Audit Report"
  {
    ReportMetadata(env.reportId, env.generatedAt, env.version, results.contractName,
      results.analysisSummary.toolsUsed, ReportType)
  }

  /** The metadata depends on the analysis only through the contract name and the tool list:
      the findings, the recommendations and the metrics never reach it. */
  lemma MetadataIgnoresFindings(a: AnalysisResults, b: AnalysisResults, env: Provenance)
    requires a.contractName == b.contractName
    requires a.analysisSummary.toolsUsed == b.analysisSummary.toolsUsed
    ensures MetadataOf(a, env) == MetadataOf(b, env)
  {
  }

  /** The hard-coded coverage figure (85.0) of `create_technical_details`. */
  const MockCoveragePercentage: F64 := F64("85.00")
  const UncoveredArea: string := "External library interactions"

  /** `create_technical_details`: the metrics verbatim, a coverage record derived
      from them, and the fixed two-entry tool configuration note. */
  function TechnicalDetailsOf(metrics: AnalysisMetrics, duration: F64): (t: TechnicalDetails)
    ensures t.analysisMetrics == metrics && t.analysisDuration == duration
    ensures t.coverageReport.linesAnalyzed == metrics.linesOfCode
    ensures t.coverageReport.functionsAnalyzed == metrics.functionsAnalyzed
    ensures t.toolConfigurations.Keys == {"slither", "mythril"}
  {
    var coverage := CoverageReport(metrics.linesOfCode, metrics.functionsAnalyzed,
      MockCoveragePercentage, [UncoveredArea]);
    var toolConfigurations := map["slither" := "Default configuration", "mythril" := "Deep analysis mode"];
    TechnicalDetails(metrics, coverage, toolConfigurations, duration)
  }

  const ToolsAppendixTitle: string := "Tool Configurations"
  const ToolsAppendixOpening: string := "Analysis performed using: "
  const MetricsAppendixTitle: string := "Analysis Metrics"

  function ToolsAppendix(results: AnalysisResults): Appendix
  {
    Appendix(ToolsAppendixTitle, ToolsAppendixOpening + Join(results.analysisSummary.toolsUsed, ", "),
      "configuration")
  }

  function MetricsAppendix(results: AnalysisResults): Appendix
  {
    var m := results.metrics;
    Appendix(MetricsAppendixTitle,
      "Security Score: " + m.securityScore.fixed2 + "\nComplexity Score: " + m.complexityScore.fixed2
        + "\nLines of Code: " + NatToString(m.linesOfCode),
      "metrics")
  }

  /** The appendices `create_appendices` returns. */
  function AppendicesOf(results: AnalysisResults): seq<Appendix>
  {
    [ToolsAppendix(results), MetricsAppendix(results)]
  }

  method CreateAppendices(results: AnalysisResults) returns (appendices: seq<Appendix>)
    ensures appendices == AppendicesOf(results)
    ensures |appendices| == 2
    ensures appendices[0].appendixType == "configuration" && appendices[1].appendixType == "metrics"
  {
    appendices := [];
    appendices := appendices + [ToolsAppendix(results)];
    appendices := appendices + [MetricsAppendix(results)];
  }

  /** The summary stored when the caller opts out of computing one. */
  function PlaceholderSummary(results: AnalysisResults): (s: ExecutiveSummary)
    ensures s.overallRiskLevel == "Not Calculated"
    ensures s.criticalFindings == s.highRiskFindings == s.mediumRiskFindings == s.lowRiskFindings == 0
    ensures s.totalVulnerabilities == |results.vulnerabilities|
    ensures s.securityScore == results.metrics.securityScore
    ensures s.keyFindings == [] && s.recommendationsSummary == []
  {
    ExecutiveSummary("Not Calculated", |results.vulnerabilities|, 0, 0, 0, 0,
      results.metrics.securityScore, [], [])
  }

  /** The report `create_comprehensive_report` assembles. */
  function ReportOf(results: AnalysisResults, includeSummary: bool, env: Provenance): ComprehensiveReport
  {
    var va := AnalysisOf(results.vulnerabilities);
    ComprehensiveReport(
      MetadataOf(results, env),
      if includeSummary then SummaryOf(results, va) else PlaceholderSummary(results),
      va,
      RecommendationsOf(results.vulnerabilities, results.recommendations),
      TechnicalDetailsOf(results.metrics, results.analysisSummary.analysisDuration),
      AppendicesOf(results))
  }

  method CreateComprehensiveReport(results: AnalysisResults, includeSummary: bool, env: Provenance)
    returns (report: ComprehensiveReport)
    ensures report == ReportOf(results, includeSummary, env)
  {
    var metadata := MetadataOf(results, env);
    var vulnerabilityAnalysis := CreateVulnerabilityAnalysis(results.vulnerabilities);
    var recommendations := CreateRecommendations(results.vulnerabilities, results.recommendations);
    var technicalDetails := TechnicalDetailsOf(results.metrics, results.analysisSummary.analysisDuration);
    var appendices := CreateAppendices(results);
    var executiveSummary;
    if includeSummary {
      executiveSummary := CreateExecutiveSummary(results, vulnerabilityAnalysis);
    } else {
      executiveSummary := PlaceholderSummary(results);
    }
    report := ComprehensiveReport(metadata, executiveSummary, vulnerabilityAnalysis, recommendations,
      technicalDetails, appendices);
  }

  /** With the summary switched off the report carries the placeholder, whatever the findings. */
  lemma SummaryDisabled(results: AnalysisResults, env: Provenance)
    ensures var s := ReportOf(results, false, env).executiveSummary;
      && s.overallRiskLevel == "Not Calculated"
      && s.criticalFindings == 0 && s.highRiskFindings == 0 && s.mediumRiskFindings == 0 && s.lowRiskFindings == 0
      && s.totalVulnerabilities == |results.vulnerabilities|
      && s.securityScore == results.metrics.securityScore
      && s.keyFindings == [] && s.recommendationsSummary == []
  {
  }

  /** The flag changes the executive summary and nothing else. */
  lemma SummaryFlagOnlyAffectsSummary(results: AnalysisResults, env: Provenance)
    ensures var on, off := ReportOf(results, true, env), ReportOf(results, false, env);
      && on.metadata == off.metadata
      && on.vulnerabilityAnalysis == off.vulnerabilityAnalysis
      && on.recommendations == off.recommendations
      && on.technicalDetails == off.technicalDetails
      && on.appendices == off.appendices
  {
  }

  /** The parts of one report agree with each other: each of the three count maps
      sums to the number of findings the summary reports and the analysis lists,
      and there is one recommendation per distinct category and one per string. */
  lemma ReportCountsAgree(results: AnalysisResults, includeSummary: bool, env: Provenance)
    ensures var r := ReportOf(results, includeSummary, env);
      var n := r.executiveSummary.totalVulnerabilities;
      && n == |r.vulnerabilityAnalysis.vulnerabilities| == |results.vulnerabilities|
      && SumOf(r.vulnerabilityAnalysis.categoryBreakdown) == n
      && SumOf(r.vulnerabilityAnalysis.severityDistribution) == n
      && SumOf(r.vulnerabilityAnalysis.toolFindings) == n
      && |r.recommendations| == |DistinctCategories(results.vulnerabilities)| + |results.recommendations|
  {
    TallyConservation(results.vulnerabilities, ByCategory);
    TallyConservation(results.vulnerabilities, BySeverity);
    TallyConservation(results.vulnerabilities, ByTool);
    RecommendationsCount(results.vulnerabilities, results.recommendations);
  }

  /** With the summary switched on, the per-severity counts are the sizes of the
      severity groups and the risk level follows the strict precedence over the findings. */
  lemma SummaryEnabled(results: AnalysisResults, env: Provenance)
    ensures var s, vs := ReportOf(results, true, env).executiveSummary, results.vulnerabilities;
      && s.criticalFindings == |WithSeverity(vs, "Critical")|
      && s.highRiskFindings == |WithSeverity(vs, "High")|
      && s.mediumRiskFindings == |WithSeverity(vs, "Medium")|
      && s.lowRiskFindings == |WithSeverity(vs, "Low")|
      && (s.overallRiskLevel == "Critical" <==> exists i :: 0 <= i < |vs| && vs[i].severity == "Critical")
      && (s.overallRiskLevel == "Minimal" <==> forall i :: 0 <= i < |vs| ==> !Ranked(vs[i].severity))
      && s.keyFindings == KeyFindings(vs)
  {
    var vs := results.vulnerabilities;
    WithSeverityCount(vs, "Critical");
    WithSeverityCount(vs, "High");
    WithSeverityCount(vs, "Medium");
    WithSeverityCount(vs, "Low");
    RiskLevelOfFindings(vs);
  }
}
