/** The data the report generator reads and produces: the analyzer's
    `AnalysisResults` snapshot with its findings, and the parts of a
    `ComprehensiveReport`. Floating-point fields are carried as the text
    `{:.2}` renders them; the generator never computes with them. */
module Model {
  import opened Wrappers

  /** An `f64` value, represented by its two-decimal rendering. */
  datatype F64 = F64(fixed2: string)

  /** A UTC instant, represented by its rendering as `%Y-%m-%d %H:%M:%S UTC`. */
  datatype Timestamp = Timestamp(formatted: string)

  datatype Category =
    | Reentrancy
    | AccessControl
    | IntegerOverflow
    | UnhandledExceptions
    | FrontRunning
    | TimestampDependence
    | Other

  /** The category's `{:?}` label, used as a map key and in generic recommendation text. */
  function CategoryName(c: Category): string
  {
    match c
    case Reentrancy => "Reentrancy"
    case AccessControl => "AccessControl"
    case IntegerOverflow => "IntegerOverflow"
    case UnhandledExceptions => "UnhandledExceptions"
    case FrontRunning => "FrontRunning"
    case TimestampDependence => "TimestampDependence"
    case Other => "Other"
  }

  /** Distinct categories have distinct labels, so keying by label loses nothing. */
  lemma CategoryNameInjective(a: Category, b: Category)
    ensures CategoryName(a) == CategoryName(b) ==> a == b
  {
    if CategoryName(a) == CategoryName(b) {
      var s := CategoryName(a);
      assert |s| == |CategoryName(b)| && s[0] == CategoryName(b)[0];
    }
  }

  /** One finding of an analyzer. `severity` is free text ("Critical", "High", ...). */
  datatype Vulnerability = Vulnerability(
    id: string,
    title: string,
    description: string,
    category: Category,
    severity: string,
    confidence: F64,
    tool: string,
    filePath: string,
    lineNumber: Option<nat>,
    codeSnippet: Option<string>,
    recommendation: Option<string>,
    references: seq<string>)

  datatype AnalysisMetrics = AnalysisMetrics(
    linesOfCode: nat,
    functionsAnalyzed: nat,
    complexityScore: F64,
    securityScore: F64)

  datatype AnalysisSummary = AnalysisSummary(toolsUsed: seq<string>, analysisDuration: F64)

  datatype AnalysisResults = AnalysisResults(
    contractName: string,
    vulnerabilities: seq<Vulnerability>,
    recommendations: seq<string>,
    metrics: AnalysisMetrics,
    analysisSummary: AnalysisSummary)

  datatype ReportMetadata = ReportMetadata(
    reportId: string,
    generatedAt: Timestamp,
    version: string,
    contractName: string,
    analysisTools: seq<string>,
    reportType: string)

  datatype ExecutiveSummary = ExecutiveSummary(
    overallRiskLevel: string,
    totalVulnerabilities: nat,
    criticalFindings: nat,
    highRiskFindings: nat,
    mediumRiskFindings: nat,
    lowRiskFindings: nat,
    securityScore: F64,
    keyFindings: seq<string>,
    recommendationsSummary: seq<string>)

  datatype VulnerabilityAnalysis = VulnerabilityAnalysis(
    vulnerabilities: seq<Vulnerability>,
    categoryBreakdown: map<string, nat>,
    severityDistribution: map<string, nat>,
    toolFindings: map<string, nat>)

  datatype Recommendation = Recommendation(
    id: string,
    title: string,
    description: string,
    priority: string,
    effort: string,
    impact: string,
    relatedVulnerabilities: seq<string>)

  datatype CoverageReport = CoverageReport(
    linesAnalyzed: nat,
    functionsAnalyzed: nat,
    coveragePercentage: F64,
    uncoveredAreas: seq<string>)

  datatype TechnicalDetails = TechnicalDetails(
    analysisMetrics: AnalysisMetrics,
    coverageReport: CoverageReport,
    toolConfigurations: map<string, string>,
    analysisDuration: F64)

  datatype Appendix = Appendix(title: string, content: string, appendixType: string)

  datatype ComprehensiveReport = ComprehensiveReport(
    metadata: ReportMetadata,
    executiveSummary: ExecutiveSummary,
    vulnerabilityAnalysis: VulnerabilityAnalysis,
    recommendations: seq<Recommendation>,
    technicalDetails: TechnicalDetails,
    appendices: seq<Appendix>)
}
