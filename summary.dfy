/** The risk summarizer (`create_executive_summary`, `extract_key_findings`):
    an overall risk level by strict precedence, a capped list of key findings
    and the first three free-text recommendations. */
module Summary {
  import opened Model
  import opened Aggregation

  const CriticalMarker: string := "\U{1F534} Critical: "
  const HighMarker: string := "\U{1F7E0} High: "
  // Written in two parts only so that the verifier sees its first character.
  const NoKeyFindings: string := "No critical " + "or high-severity vulnerabilities found."

  /** The overall risk level: the first of Critical, High, Medium, Low whose count is positive, else Minimal. */
  function RiskLevel(critical: nat, high: nat, medium: nat, low: nat): (level: string)
    ensures level == "Critical" <==> critical > 0
    ensures level == "High" <==> critical == 0 && high > 0
    ensures level == "Medium" <==> critical == 0 && high == 0 && medium > 0
    ensures level == "Low" <==> critical == 0 && high == 0 && medium == 0 && low > 0
    ensures level == "Minimal" <==> critical == 0 && high == 0 && medium == 0 && low == 0
  {
    if critical > 0 then "Critical"
    else if high > 0 then "High"
    else if medium > 0 then "Medium"
    else if low > 0 then "Low"
    else "Minimal"
  }

  /** `iter().take(n)`. */
  function Take<T>(s: seq<T>, n: nat): (r: seq<T>)
    ensures |r| == if |s| < n then |s| else n
    ensures r == s[..|r|]
  {
    s[..if |s| < n then |s| else n]
  }

  /** Each finding's title behind `marker`. */
  function Marked(marker: string, fs: seq<Vulnerability>): (r: seq<string>)
    ensures |r| == |fs|
    ensures forall i :: 0 <= i < |fs| ==> r[i] == marker + fs[i].title
  {
    seq(|fs|, i requires 0 <= i < |fs| => marker + fs[i].title)
  }

  /** The key-findings list: up to three Critical titles, then up to two High titles,
      both in input order; the sentinel alone when there are none. */
  function KeyFindings(vs: seq<Vulnerability>): seq<string>
  {
    var listed := Marked(CriticalMarker, Take(WithSeverity(vs, "Critical"), 3))
      + Marked(HighMarker, Take(WithSeverity(vs, "High"), 2));
    if listed == [] then [NoKeyFindings] else listed
  }

  method ExtractKeyFindings(vulnerabilities: seq<Vulnerability>) returns (keyFindings: seq<string>)
    ensures keyFindings == KeyFindings(vulnerabilities)
  {
    keyFindings := [];
    var criticalFindings := WithSeverity(vulnerabilities, "Critical");
    var highFindings := WithSeverity(vulnerabilities, "High");
    var topCritical := Take(criticalFindings, 3);
    for i := 0 to |topCritical|
      invariant keyFindings == Marked(CriticalMarker, topCritical[..i])
    {
      keyFindings := keyFindings + [CriticalMarker + topCritical[i].title];
    }
    assert topCritical[..|topCritical|] == topCritical;
    var topHigh := Take(highFindings, 2);
    for i := 0 to |topHigh|
      invariant keyFindings == Marked(CriticalMarker, topCritical) + Marked(HighMarker, topHigh[..i])
    {
      keyFindings := keyFindings + [HighMarker + topHigh[i].title];
    }
    assert topHigh[..|topHigh|] == topHigh;
    if |keyFindings| == 0 {
      keyFindings := [NoKeyFindings];
    }
  }

  /** Key findings are never empty and never more than five. */
  lemma KeyFindingsBounded(vs: seq<Vulnerability>)
    ensures 1 <= |KeyFindings(vs)| <= 5
  {
  }

  /** A marked entry never equals the sentinel: it starts with a coloured marker, the sentinel with 'N'. */
  lemma MarkedIsNotSentinel(marker: string, fs: seq<Vulnerability>, i: nat)
    requires marker == CriticalMarker || marker == HighMarker
    requires i < |fs|
    ensures Marked(marker, fs)[i] != NoKeyFindings
  {
    assert Marked(marker, fs)[i][0] == marker[0];
    assert NoKeyFindings[0] == 'N';
  }

  /** The sentinel appears exactly when there is no Critical and no High finding. */
  lemma KeyFindingsSentinel(vs: seq<Vulnerability>)
    ensures KeyFindings(vs) == [NoKeyFindings]
      <==> forall i :: 0 <= i < |vs| ==> vs[i].severity != "Critical" && vs[i].severity != "High"
  {
    var crit, high := WithSeverity(vs, "Critical"), WithSeverity(vs, "High");
    WithSeverityEmpty(vs, "Critical");
    WithSeverityEmpty(vs, "High");
    if crit != [] {
      MarkedIsNotSentinel(CriticalMarker, Take(crit, 3), 0);
    } else if high != [] {
      MarkedIsNotSentinel(HighMarker, Take(high, 2), 0);
      assert KeyFindings(vs)[0] == Marked(HighMarker, Take(high, 2))[0];
    }
  }

  /** Otherwise the list holds min(3, c) critical entries followed by min(2, h) high
      entries, where c and h are the Critical and High counts of the severity distribution. */
  lemma KeyFindingsCount(vs: seq<Vulnerability>)
    ensures
      var c, h := Lookup(Tally(vs, BySeverity), "Critical"), Lookup(Tally(vs, BySeverity), "High");
      c + h > 0 ==> |KeyFindings(vs)| == (if c < 3 then c else 3) + (if h < 2 then h else 2)
  {
    WithSeverityCount(vs, "Critical");
    WithSeverityCount(vs, "High");
  }

  /** Entry by entry: the i-th critical entry names the i-th Critical finding, and
      after them the j-th high entry names the j-th High finding. */
  lemma KeyFindingsEntries(vs: seq<Vulnerability>)
    ensures
      var crit, high := WithSeverity(vs, "Critical"), WithSeverity(vs, "High");
      var nc := if |crit| < 3 then |crit| else 3;
      var nh := if |high| < 2 then |high| else 2;
      nc + nh > 0 ==>
        && (forall i :: 0 <= i < nc ==> KeyFindings(vs)[i] == CriticalMarker + crit[i].title)
        && (forall j :: 0 <= j < nh ==> KeyFindings(vs)[nc + j] == HighMarker + high[j].title)
  {
  }

  /** Risk precedence in terms of the findings themselves: "Critical" exactly when some
      finding is Critical, "Minimal" exactly when no finding has one of the four ranked severities. */
  lemma RiskLevelOfFindings(vs: seq<Vulnerability>)
    ensures
      var d := Tally(vs, BySeverity);
      var level := RiskLevel(Lookup(d, "Critical"), Lookup(d, "High"), Lookup(d, "Medium"), Lookup(d, "Low"));
      && (level == "Critical" <==> exists i :: 0 <= i < |vs| && vs[i].severity == "Critical")
      && (level == "Minimal" <==> forall i :: 0 <= i < |vs| ==> !Ranked(vs[i].severity))
  {
    PositiveCountIffPresent(vs, "Critical");
    PositiveCountIffPresent(vs, "High");
    PositiveCountIffPresent(vs, "Medium");
    PositiveCountIffPresent(vs, "Low");
  }

  /** A severity's count is positive exactly when some finding carries that severity. */
  lemma PositiveCountIffPresent(vs: seq<Vulnerability>, severity: string)
    ensures Lookup(Tally(vs, BySeverity), severity) > 0 <==> exists i :: 0 <= i < |vs| && vs[i].severity == severity
  {
    TallyCounts(vs, BySeverity, severity);
    KeysMember(vs, BySeverity, severity);
  }

  /** The summary `create_executive_summary` returns for `results` and their analysis `va`. */
  function SummaryOf(results: AnalysisResults, va: VulnerabilityAnalysis): ExecutiveSummary
  {
    var d := va.severityDistribution;
    var critical, high := Lookup(d, "Critical"), Lookup(d, "High");
    var medium, low := Lookup(d, "Medium"), Lookup(d, "Low");
    ExecutiveSummary(
      RiskLevel(critical, high, medium, low),
      |results.vulnerabilities|,
      critical, high, medium, low,
      results.metrics.securityScore,
      KeyFindings(results.vulnerabilities),
      Take(results.recommendations, 3))
  }

  method CreateExecutiveSummary(results: AnalysisResults, va: VulnerabilityAnalysis) returns (summary: ExecutiveSummary)
    ensures summary == SummaryOf(results, va)
    ensures summary.totalVulnerabilities == |results.vulnerabilities|
    ensures summary.securityScore == results.metrics.securityScore
    ensures summary.criticalFindings == Lookup(va.severityDistribution, "Critical")
    ensures summary.recommendationsSummary
      == results.recommendations[..if |results.recommendations| < 3 then |results.recommendations| else 3]
  {
    var d := va.severityDistribution;
    var critical, high := Lookup(d, "Critical"), Lookup(d, "High");
    var medium, low := Lookup(d, "Medium"), Lookup(d, "Low");
    var overallRiskLevel := RiskLevel(critical, high, medium, low);
    var keyFindings := ExtractKeyFindings(results.vulnerabilities);
    var recommendationsSummary := Take(results.recommendations, 3);
    summary := ExecutiveSummary(overallRiskLevel, |results.vulnerabilities|, critical, high, medium, low,
      results.metrics.securityScore, keyFindings, recommendationsSummary);
  }
}
