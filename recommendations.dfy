/** The recommendation synthesizer (`create_recommendations`,
    `create_category_recommendation`): one recommendation per distinct
    category, in first-occurrence order, looked up in a fixed table, then one
    generic recommendation per free-text string. */
module Recommendations {
  import opened Text
  import opened Model
  import opened Aggregation

  /** One row of the category table: everything but the related findings. */
  datatype Guidance = Guidance(
    id: string,
    title: string,
    description: string,
    priority: string,
    effort: string,
    impact: string)

  /** The four categories the table names; every other category gets the generic row. */
  predicate Tabulated(c: Category)
  {
    c == Reentrancy || c == AccessControl || c == IntegerOverflow || c == UnhandledExceptions
  }

  const ReentrancyTitle: string := "Implement Reentrancy Protection"
  const ReentrancyAdvice: string :=
    "Use reentrancy guards or checks-effects-interactions pattern to prevent reentrancy attacks."
  const AccessControlTitle: string := "Strengthen Access Control"
  const AccessControlAdvice: string :=
    "Implement proper access control mechanisms using role-based permissions."
  const IntegerOverflowTitle: string := "Use Safe Math Operations"
  const IntegerOverflowAdvice: string :=
    "Implement SafeMath library or use Solidity 0.8+ built-in overflow protection."
  const ErrorHandlingTitle: string := "Improve Error Handling"
  const ErrorHandlingAdvice: string :=
    "Implement proper error handling for all external calls and operations."

  const GenericAdviceOpening: string := "Review and address all "
  const GenericAdviceClosing: string := " related vulnerabilities."

  /** The fixed table of `create_category_recommendation`. */
  function GuidanceFor(c: Category): (g: Guidance)
    ensures g.id == "REC-999" <==> !Tabulated(c)
    ensures g.priority == "High" <==> c == Reentrancy || c == AccessControl
    ensures !Tabulated(c) ==> g.priority == g.effort == g.impact == "Medium"
    ensures !Tabulated(c) ==> g.title == "Address " + CategoryName(c) + " Issues"
  {
    match c
    case Reentrancy => Guidance("REC-001", ReentrancyTitle, ReentrancyAdvice, "High", "Medium", "High")
    case AccessControl => Guidance("REC-002", AccessControlTitle, AccessControlAdvice, "High", "High", "High")
    case IntegerOverflow => Guidance("REC-003", IntegerOverflowTitle, IntegerOverflowAdvice, "Medium", "Low", "Medium")
    case UnhandledExceptions => Guidance("REC-004", ErrorHandlingTitle, ErrorHandlingAdvice, "Medium", "Medium", "Medium")
    case _ =>
      Guidance("REC-999", "Address " + CategoryName(c) + " Issues",
        GenericAdviceOpening + CategoryName(c) + GenericAdviceClosing,
        "Medium", "Medium", "Medium")
  }

  /** The table gives the four named categories four different identifiers. */
  lemma TabulatedIdsDistinct(a: Category, b: Category)
    requires Tabulated(a) && Tabulated(b) && a != b
    ensures GuidanceFor(a).id != GuidanceFor(b).id
  {
    assert GuidanceFor(a).id[6] != GuidanceFor(b).id[6];
  }

  /** The ids of the findings of category `c`, in input order. */
  function RelatedIds(c: Category, vs: seq<Vulnerability>): seq<string>
    decreases |vs|
  {
    if vs == [] then []
    else RelatedIds(c, vs[..|vs| - 1]) + (if vs[|vs| - 1].category == c then [vs[|vs| - 1].id] else [])
  }

  /** The table row for `c`, with the ids of every finding of that category, in input order. */
  function CategoryRecommendation(c: Category, vs: seq<Vulnerability>): (r: Recommendation)
    ensures Guidance(r.id, r.title, r.description, r.priority, r.effort, r.impact) == GuidanceFor(c)
    ensures |r.relatedVulnerabilities| == Lookup(Tally(vs, ByCategory), CategoryName(c))
    ensures forall id :: id in r.relatedVulnerabilities <==>
      exists i :: 0 <= i < |vs| && vs[i].category == c && vs[i].id == id
  {
    RelatedIdsCount(c, vs);
    RelatedIdsMembers(c, vs);
    var g := GuidanceFor(c);
    Recommendation(g.id, g.title, g.description, g.priority, g.effort, g.impact, RelatedIds(c, vs))
  }

  /** A category recommendation lists as many ids as the category breakdown counts for its label. */
  lemma {:induction false} RelatedIdsCount(c: Category, vs: seq<Vulnerability>)
    ensures |RelatedIds(c, vs)| == Lookup(Tally(vs, ByCategory), CategoryName(c))
    decreases |vs|
  {
    if vs != [] {
      var init, v := vs[..|vs| - 1], vs[|vs| - 1];
      RelatedIdsCount(c, init);
      CategoryNameInjective(v.category, c);
    }
  }

  /** A category recommendation lists exactly the ids of the findings of its category. */
  lemma {:induction false} RelatedIdsMembers(c: Category, vs: seq<Vulnerability>)
    ensures forall id :: id in RelatedIds(c, vs) <==> exists i :: 0 <= i < |vs| && vs[i].category == c && vs[i].id == id
    decreases |vs|
  {
    if vs != [] {
      var init, v := vs[..|vs| - 1], vs[|vs| - 1];
      RelatedIdsMembers(c, init);
      assert forall i :: 0 <= i < |init| ==> init[i] == vs[i];
    }
  }

  // ----- Distinct categories in first-occurrence order -----

  predicate Occurs(vs: seq<Vulnerability>, c: Category)
  {
    exists i :: 0 <= i < |vs| && vs[i].category == c
  }

  /** The categories in the order the source's loop first meets them, each once. */
  function DistinctCategories(vs: seq<Vulnerability>): seq<Category>
    decreases |vs|
  {
    if vs == [] then []
    else
      var seen := DistinctCategories(vs[..|vs| - 1]);
      if vs[|vs| - 1].category in seen then seen else seen + [vs[|vs| - 1].category]
  }

  /** The position of the first finding of category `c`. */
  function FirstIndex(vs: seq<Vulnerability>, c: Category): (k: nat)
    requires Occurs(vs, c)
    ensures k < |vs| && vs[k].category == c
    ensures forall j :: 0 <= j < k ==> vs[j].category != c
    decreases |vs|
  {
    var init := vs[..|vs| - 1];
    if Occurs(init, c) then FirstIndex(init, c) else |vs| - 1
  }

  /** Every category that occurs is listed, and nothing else. */
  lemma {:induction false} DistinctCategoriesCover(vs: seq<Vulnerability>)
    ensures forall c :: c in DistinctCategories(vs) <==> Occurs(vs, c)
    decreases |vs|
  {
    if vs != [] {
      var init := vs[..|vs| - 1];
      DistinctCategoriesCover(init);
      forall c ensures Occurs(vs, c) <==> Occurs(init, c) || vs[|vs| - 1].category == c {
        if Occurs(vs, c) {
          var i :| 0 <= i < |vs| && vs[i].category == c;
          if i < |init| { assert init[i] == vs[i]; }
        }
        if Occurs(init, c) {
          var i :| 0 <= i < |init| && init[i].category == c;
          assert vs[i] == init[i];
        }
      }
    }
  }

  /** No category is listed twice. */
  lemma {:induction false} DistinctCategoriesUnique(vs: seq<Vulnerability>)
    ensures forall i, j :: 0 <= i < j < |DistinctCategories(vs)| ==> DistinctCategories(vs)[i] != DistinctCategories(vs)[j]
    decreases |vs|
  {
    if vs != [] {
      DistinctCategoriesUnique(vs[..|vs| - 1]);
    }
  }

  /** Categories are listed in the order of their first occurrence. */
  lemma {:induction false} DistinctCategoriesOrder(vs: seq<Vulnerability>)
    ensures forall c :: c in DistinctCategories(vs) ==> Occurs(vs, c)
    ensures forall i, j :: 0 <= i < j < |DistinctCategories(vs)| ==>
      FirstIndex(vs, DistinctCategories(vs)[i]) < FirstIndex(vs, DistinctCategories(vs)[j])
    decreases |vs|
  {
    DistinctCategoriesCover(vs);
    if vs != [] {
      var init := vs[..|vs| - 1];
      var d, d' := DistinctCategories(init), DistinctCategories(vs);
      DistinctCategoriesOrder(init);
      DistinctCategoriesCover(init);
      forall c | c in d ensures FirstIndex(vs, c) == FirstIndex(init, c) { }
      if d' != d {
        var x := vs[|vs| - 1].category;
        assert d' == d + [x] && !Occurs(init, x);
        assert FirstIndex(vs, x) == |vs| - 1;
      }
    }
  }

  /** The category labels already seen, as the source's `processed_categories` set holds them. */
  function NameSet(cs: seq<Category>): set<string>
  {
    set c | c in cs :: CategoryName(c)
  }

  lemma NameSetMember(cs: seq<Category>, c: Category)
    ensures CategoryName(c) in NameSet(cs) <==> c in cs
  {
    if CategoryName(c) in NameSet(cs) {
      var c' :| c' in cs && CategoryName(c') == CategoryName(c);
      CategoryNameInjective(c', c);
    }
  }

  // ----- General recommendations -----

  /** `format!("REC-{:03}", i + 100)`. */
  function GeneralId(i: nat): string
  {
    "REC-" + ZeroPad(NatToString(i + 100), 3)
  }

  const GeneralTitle: string := "General Recommendation "

  /** The generic recommendation made from the i-th (0-based) free-text string. */
  function GeneralRecommendation(i: nat, text: string): (r: Recommendation)
    ensures r.description == text && r.relatedVulnerabilities == []
    ensures r.priority == r.effort == r.impact == "Medium"
  {
    Recommendation(GeneralId(i), GeneralTitle + NatToString(i + 1), text,
      "Medium", "Medium", "Medium", [])
  }

  /** The `{:03}` padding never applies, since i + 100 has three digits already:
      the id is "REC-" followed by the decimal digits of i + 100. */
  lemma GeneralIdUnpadded(i: nat)
    ensures GeneralId(i) == "REC-" + NatToString(i + 100)
    ensures DigitsValue(GeneralId(i)[4..]) == i + 100
  {
    NatToStringWidth(i + 100);
    NatToStringRoundTrip(i + 100);
    assert ("REC-" + NatToString(i + 100))[4..] == NatToString(i + 100);
  }

  /** Different positions get different ids. */
  lemma GeneralIdsDistinct(i: nat, j: nat)
    requires i != j
    ensures GeneralId(i) != GeneralId(j)
  {
    GeneralIdUnpadded(i);
    GeneralIdUnpadded(j);
  }

  // ----- The whole list -----

  function CategoryRecs(cs: seq<Category>, vs: seq<Vulnerability>): (rs: seq<Recommendation>)
    ensures |rs| == |cs|
    ensures forall k :: 0 <= k < |cs| ==> rs[k] == CategoryRecommendation(cs[k], vs)
  {
    seq(|cs|, k requires 0 <= k < |cs| => CategoryRecommendation(cs[k], vs))
  }

  function GeneralRecs(texts: seq<string>): (rs: seq<Recommendation>)
    ensures |rs| == |texts|
    ensures forall i :: 0 <= i < |texts| ==> rs[i] == GeneralRecommendation(i, texts[i])
  {
    seq(|texts|, i requires 0 <= i < |texts| => GeneralRecommendation(i, texts[i]))
  }

  /** One more finding either repeats a category already seen or appends its category. */
  lemma DistinctCategoriesStep(vs: seq<Vulnerability>, i: nat)
    requires i < |vs|
    ensures DistinctCategories(vs[..i + 1]) ==
      if vs[i].category in DistinctCategories(vs[..i]) then DistinctCategories(vs[..i])
      else DistinctCategories(vs[..i]) + [vs[i].category]
  {
    assert vs[..i + 1][..i] == vs[..i];
  }

  lemma CategoryRecsStep(cs: seq<Category>, c: Category, vs: seq<Vulnerability>)
    ensures CategoryRecs(cs + [c], vs) == CategoryRecs(cs, vs) + [CategoryRecommendation(c, vs)]
  {
    var a, b := CategoryRecs(cs + [c], vs), CategoryRecs(cs, vs) + [CategoryRecommendation(c, vs)];
    assert forall k :: 0 <= k < |a| ==> a[k] == b[k];
  }

  lemma GeneralRecsStep(texts: seq<string>, i: nat)
    requires i < |texts|
    ensures GeneralRecs(texts[..i + 1]) == GeneralRecs(texts[..i]) + [GeneralRecommendation(i, texts[i])]
  {
    var a, b := GeneralRecs(texts[..i + 1]), GeneralRecs(texts[..i]) + [GeneralRecommendation(i, texts[i])];
    assert forall k :: 0 <= k < |a| ==> a[k] == b[k];
  }

  /** The list `create_recommendations` returns. */
  function RecommendationsOf(vs: seq<Vulnerability>, texts: seq<string>): seq<Recommendation>
  {
    CategoryRecs(DistinctCategories(vs), vs) + GeneralRecs(texts)
  }

  /** `create_recommendations`: the category pass, then the general pass. */
  method CreateRecommendations(vulnerabilities: seq<Vulnerability>, basicRecommendations: seq<string>)
    returns (recommendations: seq<Recommendation>)
    ensures recommendations == RecommendationsOf(vulnerabilities, basicRecommendations)
  {
    recommendations := AddCategoryRecommendations(vulnerabilities);
    recommendations := AddGeneralRecommendations(recommendations, basicRecommendations);
  }

  /** The first loop: a finding whose category label is not yet in `processedCategories`
      records the label and pushes that category's recommendation. */
  method AddCategoryRecommendations(vulnerabilities: seq<Vulnerability>) returns (recommendations: seq<Recommendation>)
    ensures recommendations == CategoryRecs(DistinctCategories(vulnerabilities), vulnerabilities)
  {
    recommendations := [];
    var processedCategories: set<string> := {};
    ghost var seen: seq<Category> := [];
    for i := 0 to |vulnerabilities|
      invariant seen == DistinctCategories(vulnerabilities[..i])
      invariant processedCategories == NameSet(seen)
      invariant recommendations == CategoryRecs(seen, vulnerabilities)
    {
      var vuln := vulnerabilities[i];
      CategoryLoopStep(vulnerabilities, i, seen, recommendations);
      var categoryKey := CategoryName(vuln.category);
      if categoryKey !in processedCategories {
        processedCategories := processedCategories + {categoryKey};
        var recommendation := CategoryRecommendation(vuln.category, vulnerabilities);
        recommendations := recommendations + [recommendation];
        seen := seen + [vuln.category];
      }
    }
    assert vulnerabilities[..|vulnerabilities|] == vulnerabilities;
  }

  /** One turn of the first loop: a new label extends both the listing and the pushed
      recommendations by that category, a label already processed changes neither. */
  lemma CategoryLoopStep(vs: seq<Vulnerability>, i: nat, seen: seq<Category>, recs: seq<Recommendation>)
    requires i < |vs|
    requires seen == DistinctCategories(vs[..i]) && recs == CategoryRecs(seen, vs)
    ensures CategoryName(vs[i].category) in NameSet(seen) <==> vs[i].category in seen
    ensures vs[i].category in seen ==> DistinctCategories(vs[..i + 1]) == seen
    ensures vs[i].category !in seen ==>
      DistinctCategories(vs[..i + 1]) == seen + [vs[i].category] &&
      recs + [CategoryRecommendation(vs[i].category, vs)] == CategoryRecs(seen + [vs[i].category], vs)
  {
    DistinctCategoriesStep(vs, i);
    CategoryRecsStep(seen, vs[i].category, vs);
    NameSetMember(seen, vs[i].category);
  }

  /** The second loop: one general recommendation per string, numbered by position. */
  method AddGeneralRecommendations(categoryPart: seq<Recommendation>, basicRecommendations: seq<string>)
    returns (recommendations: seq<Recommendation>)
    ensures recommendations == categoryPart + GeneralRecs(basicRecommendations)
  {
    recommendations := categoryPart;
    for i := 0 to |basicRecommendations|
      invariant recommendations == categoryPart + GeneralRecs(basicRecommendations[..i])
    {
      GeneralRecsStep(basicRecommendations, i);
      recommendations := recommendations + [GeneralRecommendation(i, basicRecommendations[i])];
    }
    assert basicRecommendations[..|basicRecommendations|] == basicRecommendations;
  }

  /** The list holds one recommendation per distinct category, then one per free-text string. */
  lemma RecommendationsCount(vs: seq<Vulnerability>, texts: seq<string>)
    ensures |RecommendationsOf(vs, texts)| == |DistinctCategories(vs)| + |texts|
  {
  }

  /** The k-th recommendation belongs to the k-th distinct category (in first-occurrence
      order): it is that category's table row, and it lists the ids of that category's findings. */
  lemma CategoryPart(vs: seq<Vulnerability>, texts: seq<string>, k: nat)
    requires k < |DistinctCategories(vs)|
    ensures RecommendationsOf(vs, texts)[k] == CategoryRecommendation(DistinctCategories(vs)[k], vs)
    ensures RecommendationsOf(vs, texts)[k].id == GuidanceFor(DistinctCategories(vs)[k]).id
    ensures RecommendationsOf(vs, texts)[k].relatedVulnerabilities == RelatedIds(DistinctCategories(vs)[k], vs)
  {
  }

  /** After the category part, the i-th entry is the generic recommendation of the i-th string. */
  lemma GeneralPart(vs: seq<Vulnerability>, texts: seq<string>, i: nat)
    requires i < |texts|
    ensures RecommendationsOf(vs, texts)[|DistinctCategories(vs)| + i] == GeneralRecommendation(i, texts[i])
  {
  }

  /** Every finding is listed under the recommendation of its own category. */
  lemma FindingListedUnderOwnCategory(vs: seq<Vulnerability>, texts: seq<string>, i: nat)
    requires i < |vs|
    ensures
      var recs, d := RecommendationsOf(vs, texts), DistinctCategories(vs);
      exists k :: 0 <= k < |d| && d[k] == vs[i].category && vs[i].id in recs[k].relatedVulnerabilities
  {
    var d := DistinctCategories(vs);
    DistinctCategoriesCover(vs);
    assert Occurs(vs, vs[i].category);
    var k :| 0 <= k < |d| && d[k] == vs[i].category;
    RelatedIdsMembers(vs[i].category, vs);
  }
}
