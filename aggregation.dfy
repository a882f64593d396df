/** The finding aggregator (`create_vulnerability_analysis`): three tallies of
    the findings, by category label, by raw severity string and by tool, plus
    the severity filters that the summary and the Markdown renderer group by. */
module Aggregation {
  import opened Model

  /** Which of the three count maps a tally feeds. */
  datatype Facet = ByCategory | BySeverity | ByTool

  /** The key a finding increments in the map of facet `f`. Severity keys are the raw strings. */
  function Key(v: Vulnerability, f: Facet): string
  {
    match f
    case ByCategory => CategoryName(v.category)
    case BySeverity => v.severity
    case ByTool => v.tool
  }

  /** The keys of all findings, in input order. */
  function Keys(vs: seq<Vulnerability>, f: Facet): seq<string>
  {
    seq(|vs|, i requires 0 <= i < |vs| => Key(vs[i], f))
  }

  /** `map.get(k).unwrap_or(&0)`: an absent key counts as zero. */
  function Lookup(m: map<string, nat>, k: string): nat
  {
    if k in m then m[k] else 0
  }

  /** `*map.entry(k).or_insert(0) += 1`. */
  function Bump(m: map<string, nat>, k: string): map<string, nat>
  {
    m[k := Lookup(m, k) + 1]
  }

  /** The map the source's loop builds for facet `f` after visiting `vs`. */
  function Tally(vs: seq<Vulnerability>, f: Facet): map<string, nat>
    decreases |vs|
  {
    if vs == [] then map[] else Bump(Tally(vs[..|vs| - 1], f), Key(vs[|vs| - 1], f))
  }

  /** The analysis `create_vulnerability_analysis` returns: the findings unchanged and the three tallies. */
  function AnalysisOf(vs: seq<Vulnerability>): VulnerabilityAnalysis
  {
    VulnerabilityAnalysis(vs, Tally(vs, ByCategory), Tally(vs, BySeverity), Tally(vs, ByTool))
  }

  method CreateVulnerabilityAnalysis(vulnerabilities: seq<Vulnerability>) returns (va: VulnerabilityAnalysis)
    ensures va == AnalysisOf(vulnerabilities)
  {
    var categoryBreakdown: map<string, nat> := map[];
    var severityDistribution: map<string, nat> := map[];
    var toolFindings: map<string, nat> := map[];
    for i := 0 to |vulnerabilities|
      invariant categoryBreakdown == Tally(vulnerabilities[..i], ByCategory)
      invariant severityDistribution == Tally(vulnerabilities[..i], BySeverity)
      invariant toolFindings == Tally(vulnerabilities[..i], ByTool)
    {
      var vuln := vulnerabilities[i];
      TallyPrefix(vulnerabilities, i);
      var category := CategoryName(vuln.category);
      categoryBreakdown := Bump(categoryBreakdown, category);
      severityDistribution := Bump(severityDistribution, vuln.severity);
      toolFindings := Bump(toolFindings, vuln.tool);
    }
    assert vulnerabilities[..|vulnerabilities|] == vulnerabilities;
    assert categoryBreakdown == Tally(vulnerabilities, ByCategory);
    assert severityDistribution == Tally(vulnerabilities, BySeverity);
    assert toolFindings == Tally(vulnerabilities, ByTool);
    va := VulnerabilityAnalysis(vulnerabilities, categoryBreakdown, severityDistribution, toolFindings);
  }

  lemma TallyPrefix(vs: seq<Vulnerability>, i: nat)
    requires i < |vs|
    ensures forall f :: Tally(vs[..i + 1], f) == Bump(Tally(vs[..i], f), Key(vs[i], f))
  {
    assert vs[..i + 1][..i] == vs[..i];
  }

  lemma KeysStep(vs: seq<Vulnerability>, f: Facet)
    requires vs != []
    ensures Keys(vs, f) == Keys(vs[..|vs| - 1], f) + [Key(vs[|vs| - 1], f)]
  {
    var a, b := Keys(vs, f), Keys(vs[..|vs| - 1], f) + [Key(vs[|vs| - 1], f)];
    assert forall i :: 0 <= i < |a| ==> a[i] == b[i];
  }

  /** A key occurs among the keys exactly when some finding has it. */
  lemma KeysMember(vs: seq<Vulnerability>, f: Facet, k: string)
    ensures k in Keys(vs, f) <==> exists i :: 0 <= i < |vs| && Key(vs[i], f) == k
  {
    var ks := Keys(vs, f);
    if k in ks {
      var i :| 0 <= i < |ks| && ks[i] == k;
      assert Key(vs[i], f) == k;
    } else {
      forall i | 0 <= i < |vs|
        ensures Key(vs[i], f) != k
      {
        assert ks[i] == Key(vs[i], f);
      }
    }
  }

  /** Each entry of a tally is the number of findings with that key. */
  lemma {:induction false} TallyCounts(vs: seq<Vulnerability>, f: Facet, k: string)
    ensures Lookup(Tally(vs, f), k) == multiset(Keys(vs, f))[k]
    decreases |vs|
  {
    if vs != [] {
      var init, v := vs[..|vs| - 1], vs[|vs| - 1];
      TallyCounts(init, f, k);
      KeysStep(vs, f);
      var ks, key := Keys(init, f), Key(v, f);
      assert multiset(ks + [key])[k] == multiset(ks)[k] + (if key == k then 1 else 0);
    }
  }

  /** The keys present in a tally are exactly the keys of the findings. */
  lemma {:induction false} TallyKeys(vs: seq<Vulnerability>, f: Facet, k: string)
    ensures k in Tally(vs, f) <==> k in Keys(vs, f)
    decreases |vs|
  {
    if vs != [] {
      var init, v := vs[..|vs| - 1], vs[|vs| - 1];
      TallyKeys(init, f, k);
      KeysStep(vs, f);
    }
  }

  /** The severity distribution keeps the severity strings verbatim: its keys are
      exactly the severities that occur, with no coercion. */
  lemma SeverityKeysVerbatim(vs: seq<Vulnerability>)
    ensures Tally(vs, BySeverity).Keys == set i | 0 <= i < |vs| :: vs[i].severity
  {
    forall k | true
      ensures k in Tally(vs, BySeverity) <==> exists i :: 0 <= i < |vs| && vs[i].severity == k
    {
      TallyKeys(vs, BySeverity, k);
      KeysMember(vs, BySeverity, k);
    }
  }

  // ----- Sum of a count map -----

  /** The sum of `m`'s counts over the keys in `keys`. */
  ghost function SumOver(m: map<string, nat>, keys: set<string>): nat
    decreases keys
  {
    if keys == {} then 0 else var k :| k in keys; Lookup(m, k) + SumOver(m, keys - {k})
  }

  /** The sum of all counts of `m`. */
  ghost function SumOf(m: map<string, nat>): nat
  {
    SumOver(m, m.Keys)
  }

  lemma {:induction false} SumOverRemove(m: map<string, nat>, keys: set<string>, k: string)
    requires k in keys
    ensures SumOver(m, keys) == Lookup(m, k) + SumOver(m, keys - {k})
    decreases keys
  {
    var j :| j in keys && SumOver(m, keys) == Lookup(m, j) + SumOver(m, keys - {j});
    if j != k {
      SumOverRemove(m, keys - {j}, k);
      SumOverRemove(m, keys - {k}, j);
      assert keys - {j} - {k} == keys - {k} - {j};
    }
  }

  lemma {:induction false} SumOverAgree(m1: map<string, nat>, m2: map<string, nat>, keys: set<string>)
    requires forall k :: k in keys ==> Lookup(m1, k) == Lookup(m2, k)
    ensures SumOver(m1, keys) == SumOver(m2, keys)
    decreases keys
  {
    if keys != {} {
      var k :| k in keys;
      SumOverRemove(m1, keys, k);
      SumOverRemove(m2, keys, k);
      SumOverAgree(m1, m2, keys - {k});
    }
  }

  /** Bumping one entry raises the total by exactly one. */
  lemma SumOfBump(m: map<string, nat>, k: string)
    ensures SumOf(Bump(m, k)) == SumOf(m) + 1
  {
    var b := Bump(m, k);
    SumOverRemove(b, b.Keys, k);
    assert b.Keys - {k} == m.Keys - {k};
    SumOverAgree(b, m, m.Keys - {k});
    if k in m {
      SumOverRemove(m, m.Keys, k);
    } else {
      assert m.Keys - {k} == m.Keys;
    }
  }

  /** Count conservation: every tally's counts add up to the number of findings. */
  lemma {:induction false} TallyConservation(vs: seq<Vulnerability>, f: Facet)
    ensures SumOf(Tally(vs, f)) == |vs|
    decreases |vs|
  {
    if vs != [] {
      TallyConservation(vs[..|vs| - 1], f);
      SumOfBump(Tally(vs[..|vs| - 1], f), Key(vs[|vs| - 1], f));
    } else {
      assert Tally(vs, f).Keys == {};
    }
  }

  // ----- Severity groups -----

  /** The findings whose severity is exactly `severity`, in input order (`filter(|v| v.severity == ...)`). */
  function WithSeverity(vs: seq<Vulnerability>, severity: string): seq<Vulnerability>
    decreases |vs|
  {
    if vs == [] then []
    else WithSeverity(vs[..|vs| - 1], severity) + (if vs[|vs| - 1].severity == severity then [vs[|vs| - 1]] else [])
  }

  /** The four severities the renderer gives a group of their own. */
  predicate Ranked(severity: string)
  {
    severity == "Critical" || severity == "High" || severity == "Medium" || severity == "Low"
  }

  /** The findings the renderer files under "Informational": every severity outside the four, in input order. */
  function Unranked(vs: seq<Vulnerability>): seq<Vulnerability>
    decreases |vs|
  {
    if vs == [] then []
    else Unranked(vs[..|vs| - 1]) + (if Ranked(vs[|vs| - 1].severity) then [] else [vs[|vs| - 1]])
  }

  /** A severity group holds exactly the findings of that severity, and as many
      as the severity distribution counts. */
  lemma {:induction false} WithSeverityCount(vs: seq<Vulnerability>, severity: string)
    ensures |WithSeverity(vs, severity)| == Lookup(Tally(vs, BySeverity), severity)
    ensures forall v :: v in WithSeverity(vs, severity) <==> v in vs && v.severity == severity
    decreases |vs|
  {
    if vs != [] {
      var init := vs[..|vs| - 1];
      WithSeverityCount(init, severity);
      assert vs == init + [vs[|vs| - 1]];
    }
  }

  /** A severity group is empty exactly when no finding has that severity. */
  lemma WithSeverityEmpty(vs: seq<Vulnerability>, severity: string)
    ensures WithSeverity(vs, severity) == [] <==> forall i :: 0 <= i < |vs| ==> vs[i].severity != severity
  {
    WithSeverityCount(vs, severity);
    var w := WithSeverity(vs, severity);
    if w != [] {
      assert w[0] in w;
    }
  }

  /** Filtering respects concatenation, so a group lists its findings in input order. */
  lemma {:induction false} WithSeverityAppend(a: seq<Vulnerability>, b: seq<Vulnerability>, severity: string)
    ensures WithSeverity(a + b, severity) == WithSeverity(a, severity) + WithSeverity(b, severity)
    decreases |b|
  {
    if b == [] {
      assert a + b == a;
    } else {
      var binit := b[..|b| - 1];
      WithSeverityAppend(a, binit, severity);
      assert (a + b)[..|a + b| - 1] == a + binit;
    }
  }

  /** Every finding whose severity is outside the four lands in the "Informational" group, and only those. */
  lemma {:induction false} UnrankedMembers(vs: seq<Vulnerability>)
    ensures forall v :: v in Unranked(vs) <==> v in vs && !Ranked(v.severity)
    decreases |vs|
  {
    if vs != [] {
      var init := vs[..|vs| - 1];
      UnrankedMembers(init);
      assert vs == init + [vs[|vs| - 1]];
    }
  }

  lemma LastSplit<T>(s: seq<T>)
    requires s != []
    ensures s == s[..|s| - 1] + [s[|s| - 1]]
  {
  }

  /** How often `x` occurs in a group grows by one exactly when the last finding is `x` and joins that group. */
  lemma GroupCountStep(vs: seq<Vulnerability>, severity: string, x: Vulnerability)
    requires vs != []
    ensures var init, v := vs[..|vs| - 1], vs[|vs| - 1];
      && multiset(WithSeverity(vs, severity))[x]
         == multiset(WithSeverity(init, severity))[x] + (if v.severity == severity && v == x then 1 else 0)
      && multiset(Unranked(vs))[x] == multiset(Unranked(init))[x] + (if !Ranked(v.severity) && v == x then 1 else 0)
  {
  }

  /** Finding by finding: each value occurs in the input as often as in the five groups together. */
  lemma {:induction false} GroupMultiplicity(vs: seq<Vulnerability>, x: Vulnerability)
    ensures multiset(vs)[x] == multiset(WithSeverity(vs, "Critical"))[x] + multiset(WithSeverity(vs, "High"))[x]
      + multiset(WithSeverity(vs, "Medium"))[x] + multiset(WithSeverity(vs, "Low"))[x] + multiset(Unranked(vs))[x]
    decreases |vs|
  {
    if vs != [] {
      var init, v := vs[..|vs| - 1], vs[|vs| - 1];
      GroupMultiplicity(init, x);
      LastSplit(vs);
      var hit := if v == x then 1 else 0;
      assert multiset(vs)[x] == multiset(init)[x] + hit;
      GroupCountStep(vs, "Critical", x);
      GroupCountStep(vs, "High", x);
      GroupCountStep(vs, "Medium", x);
      GroupCountStep(vs, "Low", x);
    }
  }

  /** The five display groups partition the findings: every finding is in exactly one group. */
  lemma SeverityGroupsPartition(vs: seq<Vulnerability>)
    ensures multiset(vs) == multiset(WithSeverity(vs, "Critical")) + multiset(WithSeverity(vs, "High"))
      + multiset(WithSeverity(vs, "Medium")) + multiset(WithSeverity(vs, "Low")) + multiset(Unranked(vs))
  {
    forall x {
      GroupMultiplicity(vs, x);
    }
  }



  /** Hence the five groups together hold as many findings as the input. */
  lemma SeverityGroupsSize(vs: seq<Vulnerability>)
    ensures |WithSeverity(vs, "Critical")| + |WithSeverity(vs, "High")| + |WithSeverity(vs, "Medium")|
      + |WithSeverity(vs, "Low")| + |Unranked(vs)| == |vs|
  {
    SeverityGroupsPartition(vs);
    assert |multiset(vs)| == |vs|;
  }
}
