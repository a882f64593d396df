/** The renderers (`generate_markdown_report`, `add_vulnerability_section`,
    `generate_html_report`, `generate_pdf_report`) and the format dispatch of
    `generate_comprehensive_report`. Markdown is built by pushing onto a string
    buffer; each method is proved equal to the function describing the text. */
module Render {
  import opened Wrappers
  import opened Text
  import opened Model
  import opened Aggregation
  import opened Assembly

  const CriticalIcon: string := "\U{1F534}"
  const HighIcon: string := "\U{1F7E0}"
  const MediumIcon: string := "\U{1F7E1}"
  const LowIcon: string := "\U{1F7E2}"
  const InfoIcon: string := "\U{1F535}"

  // ----- Pieces of the Markdown text -----

  function Bullet(item: string): string
  {
    "- " + item + "\n"
  }

  function BulletParts(items: seq<string>): seq<string>
  {
    seq(|items|, i requires 0 <= i < |items| => Bullet(items[i]))
  }

  /** One `- item` line per item, in order. */
  function Bullets(items: seq<string>): string
  {
    Concat(BulletParts(items))
  }

  const TitlePrefix: string := "# Security Audit Report: "

  function MetadataBlock(m: ReportMetadata): string
  {
    TitlePrefix + m.contractName + "\n\n"
      + "**Report ID:** " + m.reportId + "\n"
      + "**Generated:** " + m.generatedAt.formatted + "\n"
      + "**Version:** " + m.version + "\n"
      + "**Tools Used:** " + Join(m.analysisTools, ", ") + "\n\n"
  }

  function SummaryBlock(s: ExecutiveSummary): string
  {
    "## Executive Summary\n\n"
      + "**Overall Risk Level:** " + s.overallRiskLevel + "\n"
      + "**Security Score:** " + s.securityScore.fixed2 + "/100\n"
      + "**Total Vulnerabilities:** " + NatToString(s.totalVulnerabilities) + "\n\n"
      + "### Severity Distribution\n\n"
      + "- " + CriticalIcon + " Critical: " + NatToString(s.criticalFindings) + "\n"
      + "- " + HighIcon + " High: " + NatToString(s.highRiskFindings) + "\n"
      + "- " + MediumIcon + " Medium: " + NatToString(s.mediumRiskFindings) + "\n"
      + "- " + LowIcon + " Low: " + NatToString(s.lowRiskFindings) + "\n\n"
  }

  /** The key findings list, omitted altogether when there are none. */
  function KeyFindingsBlock(s: ExecutiveSummary): string
  {
    if s.keyFindings == [] then "" else "### Key Findings\n\n" + Bullets(s.keyFindings) + "\n"
  }

  function LineEntry(line: Option<nat>): string
  {
    match line
    case None => ""
    case Some(n) => "**Line:** " + NatToString(n) + "\n"
  }

  function CodeEntry(code: Option<string>): string
  {
    match code
    case None => ""
    case Some(c) => "**Code Snippet:**\n" + "```solidity\n" + c + "\n```\n\n"
  }

  function RecommendationEntry(recommendation: Option<string>): string
  {
    match recommendation
    case None => ""
    case Some(r) => "**Recommendation:** " + r + "\n\n"
  }

  function ReferencesEntry(references: seq<string>): string
  {
    if references == [] then "" else "**References:**\n" + Bullets(references) + "\n"
  }

  function FindingHeading(initial: char, n: nat, v: Vulnerability): string
  {
    "#### " + [initial] + "." + NatToString(n) + " " + v.title + "\n\n"
  }

  function DescriptionEntry(v: Vulnerability): string
  {
    "**Description:** " + v.description + "\n\n"
  }

  function FileEntry(v: Vulnerability): string
  {
    "**File:** " + v.filePath + "\n"
  }

  function ToolEntry(v: Vulnerability): string
  {
    "**Tool:** " + v.tool + "\n"
  }

  function ConfidenceEntry(v: Vulnerability): string
  {
    "**Confidence:** " + v.confidence.fixed2 + "\n\n"
  }

  const FindingSeparator: string := "---\n\n"

  /** The block of the `n`-th finding of a section whose severity starts with `initial`. */
  function FindingBlock(initial: char, n: nat, v: Vulnerability): string
  {
    FindingHeading(initial, n, v) + DescriptionEntry(v) + FileEntry(v) + LineEntry(v.lineNumber)
      + ToolEntry(v) + ConfidenceEntry(v) + CodeEntry(v.codeSnippet)
      + RecommendationEntry(v.recommendation) + ReferencesEntry(v.references) + FindingSeparator
  }

  function FindingParts(initial: char, vs: seq<Vulnerability>): seq<string>
  {
    seq(|vs|, i requires 0 <= i < |vs| => FindingBlock(initial, i + 1, vs[i]))
  }

  function SectionHeading(severity: string, icon: string): string
  {
    "### " + icon + " " + severity + " Vulnerabilities\n\n"
  }

  /** The text `add_vulnerability_section` appends: nothing for an empty group,
      otherwise a heading and the findings numbered from 1. The label's initial
      is the severity's first character, which the source takes with an
      `unwrap`, so a non-empty group needs a non-empty severity. */
  function SectionText(severity: string, icon: string, vs: seq<Vulnerability>): string
    requires vs != [] ==> severity != ""
  {
    if vs == [] then "" else SectionHeading(severity, icon) + Concat(FindingParts(severity[0], vs))
  }

  /** The five sections in their fixed order; severities outside the four go to "Informational". */
  function AnalysisBlock(vs: seq<Vulnerability>): string
  {
    "## Vulnerability Analysis\n\n"
      + SectionText("Critical", CriticalIcon, WithSeverity(vs, "Critical"))
      + SectionText("High", HighIcon, WithSeverity(vs, "High"))
      + SectionText("Medium", MediumIcon, WithSeverity(vs, "Medium"))
      + SectionText("Low", LowIcon, WithSeverity(vs, "Low"))
      + SectionText("Informational", InfoIcon, Unranked(vs))
  }

  function RecommendationBlock(n: nat, rec: Recommendation): string
  {
    "### " + NatToString(n) + ". " + rec.title + "\n\n"
      + "**Priority:** " + rec.priority + "\n"
      + "**Effort:** " + rec.effort + "\n"
      + "**Impact:** " + rec.impact + "\n\n"
      + rec.description + "\n\n"
  }

  function RecommendationParts(recs: seq<Recommendation>): seq<string>
  {
    seq(|recs|, i requires 0 <= i < |recs| => RecommendationBlock(i + 1, recs[i]))
  }

  function RecommendationsBlock(recs: seq<Recommendation>): string
  {
    "## Recommendations\n\n" + Concat(RecommendationParts(recs))
  }

  function TechnicalBlock(t: TechnicalDetails): string
  {
    "## Technical Details\n\n"
      + "**Analysis Duration:** " + t.analysisDuration.fixed2 + " seconds\n"
      + "**Lines of Code:** " + NatToString(t.analysisMetrics.linesOfCode) + "\n"
      + "**Functions Analyzed:** " + NatToString(t.analysisMetrics.functionsAnalyzed) + "\n"
      + "**Complexity Score:** " + t.analysisMetrics.complexityScore.fixed2 + "\n\n"
  }

  function AppendixBlock(a: Appendix): string
  {
    "### " + a.title + "\n\n" + a.content + "\n\n"
  }

  function AppendixParts(appendices: seq<Appendix>): seq<string>
  {
    seq(|appendices|, i requires 0 <= i < |appendices| => AppendixBlock(appendices[i]))
  }

  /** The appendices, omitted altogether when there are none. */
  function AppendicesBlock(appendices: seq<Appendix>): string
  {
    if appendices == [] then "" else "## Appendices\n\n" + Concat(AppendixParts(appendices))
  }

  /** The whole Markdown document `generate_markdown_report` builds. */
  function MarkdownOf(report: ComprehensiveReport): string
  {
    MetadataBlock(report.metadata)
      + SummaryBlock(report.executiveSummary)
      + KeyFindingsBlock(report.executiveSummary)
      + AnalysisBlock(report.vulnerabilityAnalysis.vulnerabilities)
      + RecommendationsBlock(report.recommendations)
      + TechnicalBlock(report.technicalDetails)
      + AppendicesBlock(report.appendices)
  }

  // ----- The buffer-pushing renderer -----

  /** Pushes one `- item` line per item. */
  method AppendBullets(buffer: string, items: seq<string>) returns (out: string)
    ensures out == buffer + Bullets(items)
  {
    out := buffer;
    for i := 0 to |items|
      invariant out == buffer + Concat(BulletParts(items)[..i])
    {
      ConcatPrefixStep(BulletParts(items), i);
      out := out + "- " + items[i] + "\n";
    }
    assert BulletParts(items)[..|items|] == BulletParts(items);
  }

  /** Pushes the block of one finding. `written` is what has been pushed so far. */
  method AppendFinding(buffer: string, initial: char, n: nat, v: Vulnerability) returns (out: string)
    ensures out == buffer + FindingBlock(initial, n, v)
  {
    ghost var written := FindingHeading(initial, n, v);
    out := buffer + FindingHeading(initial, n, v);
    Regroup(buffer, written, DescriptionEntry(v));
    written := written + DescriptionEntry(v);
    out := out + DescriptionEntry(v);
    Regroup(buffer, written, FileEntry(v));
    written := written + FileEntry(v);
    out := out + FileEntry(v);
    Regroup(buffer, written, LineEntry(v.lineNumber));
    written := written + LineEntry(v.lineNumber);
    if v.lineNumber.Some? {
      out := out + LineEntry(v.lineNumber);
    } else {
      assert out + LineEntry(v.lineNumber) == out;
    }
    Regroup(buffer, written, ToolEntry(v));
    written := written + ToolEntry(v);
    out := out + ToolEntry(v);
    Regroup(buffer, written, ConfidenceEntry(v));
    written := written + ConfidenceEntry(v);
    out := out + ConfidenceEntry(v);
    Regroup(buffer, written, CodeEntry(v.codeSnippet));
    written := written + CodeEntry(v.codeSnippet);
    if v.codeSnippet.Some? {
      out := out + CodeEntry(v.codeSnippet);
    } else {
      assert out + CodeEntry(v.codeSnippet) == out;
    }
    Regroup(buffer, written, RecommendationEntry(v.recommendation));
    written := written + RecommendationEntry(v.recommendation);
    if v.recommendation.Some? {
      out := out + RecommendationEntry(v.recommendation);
    } else {
      assert out + RecommendationEntry(v.recommendation) == out;
    }
    Regroup(buffer, written, ReferencesEntry(v.references));
    written := written + ReferencesEntry(v.references);
    if v.references != [] {
      out := AppendReferences(out, v.references);
    } else {
      assert out + ReferencesEntry(v.references) == out;
    }
    Regroup(buffer, written, FindingSeparator);
    written := written + FindingSeparator;
    out := out + FindingSeparator;
  }

  /** Pushes the references heading, one line per reference, and a blank line. */
  method AppendReferences(buffer: string, references: seq<string>) returns (out: string)
    requires references != []
    ensures out == buffer + ReferencesEntry(references)
  {
    out := buffer + "**References:**\n";
    out := AppendBullets(out, references);
    out := out + "\n";
  }

  /** Pushes one finding block per finding, numbered from 1. */
  method AddVulnerabilitySection(markdown: string, severity: string, vulnerabilities: seq<Vulnerability>, icon: string)
    returns (out: string)
    requires vulnerabilities != [] ==> severity != ""
    ensures out == markdown + SectionText(severity, icon, vulnerabilities)
  {
    if vulnerabilities == [] {
      assert markdown + SectionText(severity, icon, vulnerabilities) == markdown;
      return markdown;
    }
    var heading := SectionHeading(severity, icon);
    var initial := severity[0];
    ghost var parts := FindingParts(initial, vulnerabilities);
    out := markdown + heading;
    for i := 0 to |vulnerabilities|
      invariant out == markdown + heading + Concat(parts[..i])
    {
      ConcatPrefixStep(parts, i);
      Regroup(markdown + heading, Concat(parts[..i]), parts[i]);
      out := AppendFinding(out, initial, i + 1, vulnerabilities[i]);
    }
    assert parts[..|vulnerabilities|] == parts;
    Regroup(markdown, heading, Concat(parts));
  }

  /** The bucketing loop: each finding goes to the bucket of its severity, in input order. */
  method GroupBySeverity(vulnerabilities: seq<Vulnerability>)
    returns (critical: seq<Vulnerability>, high: seq<Vulnerability>, medium: seq<Vulnerability>,
             low: seq<Vulnerability>, info: seq<Vulnerability>)
    ensures critical == WithSeverity(vulnerabilities, "Critical")
    ensures high == WithSeverity(vulnerabilities, "High")
    ensures medium == WithSeverity(vulnerabilities, "Medium")
    ensures low == WithSeverity(vulnerabilities, "Low")
    ensures info == Unranked(vulnerabilities)
  {
    critical, high, medium, low, info := [], [], [], [], [];
    for i := 0 to |vulnerabilities|
      invariant critical == WithSeverity(vulnerabilities[..i], "Critical")
      invariant high == WithSeverity(vulnerabilities[..i], "High")
      invariant medium == WithSeverity(vulnerabilities[..i], "Medium")
      invariant low == WithSeverity(vulnerabilities[..i], "Low")
      invariant info == Unranked(vulnerabilities[..i])
    {
      var v := vulnerabilities[i];
      assert vulnerabilities[..i + 1][..i] == vulnerabilities[..i];
      if v.severity == "Critical" {
        critical := critical + [v];
      } else if v.severity == "High" {
        high := high + [v];
      } else if v.severity == "Medium" {
        medium := medium + [v];
      } else if v.severity == "Low" {
        low := low + [v];
      } else {
        info := info + [v];
      }
    }
    assert vulnerabilities[..|vulnerabilities|] == vulnerabilities;
  }

  /** The vulnerability analysis part: bucket the findings, then one section per bucket. */
  method AppendAnalysis(buffer: string, vulnerabilities: seq<Vulnerability>) returns (out: string)
    ensures out == buffer + AnalysisBlock(vulnerabilities)
  {
    ghost var written := "## Vulnerability Analysis\n\n";
    out := buffer + "## Vulnerability Analysis\n\n";
    var critical, high, medium, low, info := GroupBySeverity(vulnerabilities);
    Regroup(buffer, written, SectionText("Critical", CriticalIcon, critical));
    written := written + SectionText("Critical", CriticalIcon, critical);
    out := AddVulnerabilitySection(out, "Critical", critical, CriticalIcon);
    Regroup(buffer, written, SectionText("High", HighIcon, high));
    written := written + SectionText("High", HighIcon, high);
    out := AddVulnerabilitySection(out, "High", high, HighIcon);
    Regroup(buffer, written, SectionText("Medium", MediumIcon, medium));
    written := written + SectionText("Medium", MediumIcon, medium);
    out := AddVulnerabilitySection(out, "Medium", medium, MediumIcon);
    Regroup(buffer, written, SectionText("Low", LowIcon, low));
    written := written + SectionText("Low", LowIcon, low);
    out := AddVulnerabilitySection(out, "Low", low, LowIcon);
    Regroup(buffer, written, SectionText("Informational", InfoIcon, info));
    written := written + SectionText("Informational", InfoIcon, info);
    out := AddVulnerabilitySection(out, "Informational", info, InfoIcon);
  }

  /** The key findings part, skipped when there are none. */
  method AppendKeyFindings(buffer: string, summary: ExecutiveSummary) returns (out: string)
    ensures out == buffer + KeyFindingsBlock(summary)
  {
    if summary.keyFindings == [] {
      assert buffer + KeyFindingsBlock(summary) == buffer;
      return buffer;
    }
    out := buffer + "### Key Findings\n\n";
    out := AppendBullets(out, summary.keyFindings);
    out := out + "\n";
  }

  /** The recommendations part: a numbered block per recommendation. */
  method AppendRecommendations(buffer: string, recommendations: seq<Recommendation>) returns (out: string)
    ensures out == buffer + RecommendationsBlock(recommendations)
  {
    var heading := "## Recommendations\n\n";
    ghost var parts := RecommendationParts(recommendations);
    out := buffer + heading;
    for i := 0 to |recommendations|
      invariant out == buffer + heading + Concat(parts[..i])
    {
      ConcatPrefixStep(parts, i);
      Regroup(buffer + heading, Concat(parts[..i]), parts[i]);
      out := out + RecommendationBlock(i + 1, recommendations[i]);
    }
    assert parts[..|recommendations|] == parts;
    Regroup(buffer, heading, Concat(parts));
  }

  /** The appendices part, skipped when there are none. */
  method AppendAppendices(buffer: string, appendices: seq<Appendix>) returns (out: string)
    ensures out == buffer + AppendicesBlock(appendices)
  {
    if appendices == [] {
      assert buffer + AppendicesBlock(appendices) == buffer;
      return buffer;
    }
    var heading := "## Appendices\n\n";
    ghost var parts := AppendixParts(appendices);
    out := buffer + heading;
    for i := 0 to |appendices|
      invariant out == buffer + heading + Concat(parts[..i])
    {
      ConcatPrefixStep(parts, i);
      Regroup(buffer + heading, Concat(parts[..i]), parts[i]);
      out := out + AppendixBlock(appendices[i]);
    }
    assert parts[..|appendices|] == parts;
    Regroup(buffer, heading, Concat(parts));
  }

  /** `generate_markdown_report`: the document, pushed part by part onto an empty buffer. */
  method GenerateMarkdownReport(report: ComprehensiveReport) returns (markdown: string)
    ensures markdown == MarkdownOf(report)
  {
    markdown := MetadataBlock(report.metadata);
    markdown := markdown + SummaryBlock(report.executiveSummary);
    markdown := AppendKeyFindings(markdown, report.executiveSummary);
    markdown := AppendAnalysis(markdown, report.vulnerabilityAnalysis.vulnerabilities);
    markdown := AppendRecommendations(markdown, report.recommendations);
    markdown := markdown + TechnicalBlock(report.technicalDetails);
    markdown := AppendAppendices(markdown, report.appendices);
  }

  // ----- HTML, PDF and the format dispatch -----

  const HtmlOpening: string := "<!DOCTYPE html>\n<html>\n<head>\n    <title>Security Audit Report - "
  /** The fixed stylesheet block between the title and `<pre>`, line by line. */
  const HtmlStyleLines: seq<string> := [
    "</title>\n",
    "    <style>\n",
    "        body { font-family: Arial, sans-serif; margin: 40px; }\n",
    "        h1 { color: #333; }\n",
    "        h2 { color: #666; border-bottom: 2px solid #eee; }\n",
    "        h3 { color: #888; }\n",
    "        .severity-critical { color: #dc3545; }\n",
    "        .severity-high { color: #fd7e14; }\n",
    "        .severity-medium { color: #ffc107; }\n",
    "        .severity-low { color: #28a745; }\n",
    "        .code { background-color: #f8f9fa; padding: 10px; border-radius: 4px; }\n",
    "        .vulnerability { border: 1px solid #ddd; padding: 15px; margin: 10px 0; border-radius: 5px; }\n",
    "    </style>\n",
    "</head>\n",
    "<body>\n",
    "    "
  ]
  const HtmlStyle: string := Concat(HtmlStyleLines)
  const PreOpen: string := "<pre>"
  const PreClose: string := "</pre>"
  const HtmlClosing: string := "\n</body>\n</html>"

  /** The fixed HTML page with the contract name in the title and the Markdown,
      unescaped, inside `<pre>`. */
  function HtmlPage(contractName: string, markdown: string): string
  {
    HtmlOpening + contractName + HtmlStyle + PreOpen + markdown + PreClose + HtmlClosing
  }

  function HtmlOf(report: ComprehensiveReport): string
  {
    HtmlPage(report.metadata.contractName, MarkdownOf(report))
  }

  /** `generate_html_report`. */
  method GenerateHtmlReport(report: ComprehensiveReport) returns (html: string)
    ensures html == HtmlOf(report)
  {
    var markdown := GenerateMarkdownReport(report);
    html := HtmlPage(report.metadata.contractName, markdown);
  }

  /** `generate_pdf_report`: a placeholder that returns the HTML. */
  method GeneratePdfReport(report: ComprehensiveReport) returns (pdf: string)
    ensures pdf == HtmlOf(report)
  {
    pdf := GenerateHtmlReport(report);
  }

  const UnsupportedFormat: string := "Unsupported report format: "

  /** The output for a format selector; `toJson` stands for the JSON serializer. */
  function Rendered(report: ComprehensiveReport, format: string, toJson: ComprehensiveReport -> Result<string>)
    : Result<string>
  {
    if format == "markdown" then Ok(MarkdownOf(report))
    else if format == "html" then Ok(HtmlOf(report))
    else if format == "json" then toJson(report)
    else if format == "pdf" then Ok(HtmlOf(report))
    else Err(UnsupportedFormat + format)
  }

  /** `generate_comprehensive_report` once the results are loaded: assemble, then render in the selected format. */
  method GenerateComprehensiveReport(results: AnalysisResults, format: string, includeSummary: bool, env: Provenance,
                                     toJson: ComprehensiveReport -> Result<string>)
    returns (output: Result<string>)
    ensures output == Rendered(ReportOf(results, includeSummary, env), format, toJson)
  {
    var report := CreateComprehensiveReport(results, includeSummary, env);
    if format == "markdown" {
      var markdown := GenerateMarkdownReport(report);
      output := Ok(markdown);
    } else if format == "html" {
      var html := GenerateHtmlReport(report);
      output := Ok(html);
    } else if format == "json" {
      output := toJson(report);
    } else if format == "pdf" {
      var pdf := GeneratePdfReport(report);
      output := Ok(pdf);
    } else {
      output := Err(UnsupportedFormat + format);
    }
  }

  // ----- Properties of the rendered text -----

  /** Any selector other than the four is rejected with a message naming it; the three text formats always succeed. */
  lemma FormatDispatch(report: ComprehensiveReport, format: string, toJson: ComprehensiveReport -> Result<string>)
    ensures format != "markdown" && format != "html" && format != "json" && format != "pdf"
      ==> Rendered(report, format, toJson) == Err(UnsupportedFormat + format)
    ensures format == "markdown" || format == "html" || format == "pdf"
      ==> Rendered(report, format, toJson).Ok?
    ensures format == "json" ==> Rendered(report, format, toJson) == toJson(report)
  {
  }

  /** The page holds the Markdown verbatim, directly between `<pre>` and `</pre>`. */
  lemma HtmlEmbedsMarkdown(contractName: string, markdown: string)
    ensures var html, k := HtmlPage(contractName, markdown), |HtmlOpening + contractName + HtmlStyle + PreOpen|;
      && k + |markdown| + |PreClose| <= |html|
      && html[k - |PreOpen|..k] == PreOpen
      && html[k..k + |markdown|] == markdown
      && html[k + |markdown|..k + |markdown| + |PreClose|] == PreClose
  {
    var front := HtmlOpening + contractName + HtmlStyle;
    var html := HtmlPage(contractName, markdown);
    assert html == front + PreOpen + markdown + PreClose + HtmlClosing;
    var k := |front + PreOpen|;
    assert html[k - |PreOpen|..k] == PreOpen;
    assert html[k..k + |markdown|] == markdown;
    assert html[k + |markdown|..k + |markdown| + |PreClose|] == PreClose;
  }

  /** A group with no findings appends nothing; a non-empty one always appends its heading. */
  lemma SectionEmptyIffNoFindings(severity: string, icon: string, vs: seq<Vulnerability>)
    requires vs != [] ==> severity != ""
    ensures SectionText(severity, icon, vs) == "" <==> vs == []
  {
    if vs != [] {
      assert SectionText(severity, icon, vs)[0] == '#';
    }
  }

  /** The `k`-th finding of a group is rendered in its section, labelled with the
      severity's initial and `k + 1`, after the findings before it and before those after it. */
  lemma SectionListsFinding(severity: string, icon: string, vs: seq<Vulnerability>, k: nat)
    requires severity != "" && k < |vs|
    ensures var parts := FindingParts(severity[0], vs);
      SectionText(severity, icon, vs)
        == SectionHeading(severity, icon) + Concat(parts[..k]) + FindingBlock(severity[0], k + 1, vs[k])
           + Concat(parts[k + 1..])
  {
    var parts := FindingParts(severity[0], vs);
    var heading, before, after := SectionHeading(severity, icon), Concat(parts[..k]), Concat(parts[k + 1..]);
    ConcatParts(parts, k);
    Regroup(heading, before + parts[k], after);
    Regroup(heading, before, parts[k]);
  }

  /** The section a severity is rendered under. */
  function GroupLabel(severity: string): string
  {
    if Ranked(severity) then severity else "Informational"
  }

  /** The findings rendered under a section label. */
  function GroupNamed(vs: seq<Vulnerability>, section: string): seq<Vulnerability>
  {
    if section == "Informational" then Unranked(vs) else WithSeverity(vs, section)
  }

  const GroupLabels: seq<string> := ["Critical", "High", "Medium", "Low", "Informational"]

  /** Every finding appears under exactly one of the five section labels: the one its severity selects. */
  lemma FindingInOneGroup(vs: seq<Vulnerability>, v: Vulnerability)
    requires v in vs
    ensures forall j :: 0 <= j < |GroupLabels| ==>
      (v in GroupNamed(vs, GroupLabels[j]) <==> GroupLabels[j] == GroupLabel(v.severity))
  {
    WithSeverityCount(vs, "Critical");
    WithSeverityCount(vs, "High");
    WithSeverityCount(vs, "Medium");
    WithSeverityCount(vs, "Low");
    UnrankedMembers(vs);
  }

  /** The analysis part renders exactly the five groups, in their fixed order. */
  lemma AnalysisRendersGroups(vs: seq<Vulnerability>)
    ensures AnalysisBlock(vs) == "## Vulnerability Analysis\n\n"
      + SectionText(GroupLabels[0], CriticalIcon, GroupNamed(vs, GroupLabels[0]))
      + SectionText(GroupLabels[1], HighIcon, GroupNamed(vs, GroupLabels[1]))
      + SectionText(GroupLabels[2], MediumIcon, GroupNamed(vs, GroupLabels[2]))
      + SectionText(GroupLabels[3], LowIcon, GroupNamed(vs, GroupLabels[3]))
      + SectionText(GroupLabels[4], InfoIcon, GroupNamed(vs, GroupLabels[4]))
  {
  }

  /** The key findings list is left out exactly when there are none. */
  lemma KeyFindingsOmittedIffEmpty(s: ExecutiveSummary)
    ensures KeyFindingsBlock(s) == "" <==> s.keyFindings == []
  {
    if s.keyFindings != [] {
      assert KeyFindingsBlock(s)[0] == '#';
    }
  }

  /** The appendices part is left out exactly when there are none. */
  lemma AppendicesOmittedIffEmpty(appendices: seq<Appendix>)
    ensures AppendicesBlock(appendices) == "" <==> appendices == []
  {
    if appendices != [] {
      assert AppendicesBlock(appendices)[0] == '#';
    }
  }

  /** Each item gets its own `- item` line, in order. */
  lemma BulletsListItem(items: seq<string>, k: nat)
    requires k < |items|
    ensures Bullets(items)
      == Concat(BulletParts(items)[..k]) + "- " + items[k] + "\n" + Concat(BulletParts(items)[k + 1..])
  {
    ConcatParts(BulletParts(items), k);
  }
}
