/**
 * The checks and normalisers for AI-generated presentations: the
 * structural check of generated documents and the two normalisers that
 * turn loosely shaped records into chart points and metric cards.
 */
module AiOutput {
  import opened Wrappers
  import opened JsValues
  import opened Strings
  import Mdx

  // ---------------------------------------------------------------------
  // Checking generated documents
  // ---------------------------------------------------------------------

  datatype AiReport = AiReport(valid: bool, issues: seq<string>, suggestions: seq<string>)

  /** The four findings of the generated-output check. */
  datatype AiIssue = MissingFrontmatter | NoComponents | BadChartData | BadMetricsData

  function IssueText(issue: AiIssue): string {
    match issue
    case MissingFrontmatter => "Missing frontmatter section"
    case NoComponents => "No valid components found"
    case BadChartData => "Invalid chart data format detected"
    case BadMetricsData => "Invalid metrics data format detected"
  }

  /** The suggestion pushed together with each issue. */
  function SuggestionText(issue: AiIssue): string {
    match issue
    case MissingFrontmatter => "Add frontmatter with title, date, and type fields"
    case NoComponents => "Add at least one component (Hero, MetricGrid, ChartSection, etc.)"
    case BadChartData => "Use format: [{name: \"string\", value: number}]"
    case BadMetricsData => "Use format: [{label: \"string\", value: number, unit?: \"string\", change?: number}]"
  }

  /** The issue texts are pairwise distinct, so a report's text determines the finding. */
  lemma IssueTextInjective(a: AiIssue, b: AiIssue)
    ensures IssueText(a) == IssueText(b) ==> a == b
  {
    if IssueText(a) == IssueText(b) {
      assert |IssueText(a)| == |IssueText(b)|;
    }
  }

  /** The whitelisted components whose opening `<Name` occurs in the text, in whitelist order. */
  function FoundAmong(content: string, names: seq<string>): (r: seq<string>)
    ensures forall k :: 0 <= k < |r| ==> r[k] in names && Contains(content, "<" + r[k])
    ensures forall k :: 0 <= k < |names| && Contains(content, "<" + names[k]) ==> names[k] in r
  {
    if names == [] then []
    else
      (if Contains(content, "<" + names[0]) then [names[0]] else []) + FoundAmong(content, names[1..])
  }

  function FoundComponents(content: string): seq<string> {
    FoundAmong(content, Mdx.KnownComponents)
  }

  /** No whitelisted component opens anywhere in the text. */
  predicate NoKnownComponent(content: string) {
    forall c :: c in Mdx.KnownComponents ==> !Contains(content, "<" + c)
  }

  /** The filter finds nothing exactly when no whitelisted component opens in the text. */
  lemma FoundComponentsEmptyIff(content: string)
    ensures FoundComponents(content) == [] <==> NoKnownComponent(content)
  {
    var found := FoundComponents(content);
    if found != [] {
      assert found[0] in Mdx.KnownComponents && Contains(content, "<" + found[0]);
    }
    if !NoKnownComponent(content) {
      var c :| c in Mdx.KnownComponents && Contains(content, "<" + c);
      var k :| 0 <= k < |Mdx.KnownComponents| && Mdx.KnownComponents[k] == c;
      assert c in found;
    }
  }

  /** Every literal holds both keys. */
  predicate AllHaveKeys(ms: seq<string>, firstKey: string, secondKey: string) {
    forall k :: 0 <= k < |ms| ==> Contains(ms[k], firstKey) && Contains(ms[k], secondKey)
  }

  /** The literal lacks one of the two keys. */
  predicate LacksKey(m: string, firstKey: string, secondKey: string) {
    !Contains(m, firstKey) || !Contains(m, secondKey)
  }

  /** The test the pass applies to each literal. */
  function LacksEither(firstKey: string, secondKey: string): string -> bool {
    m => LacksKey(m, firstKey, secondKey)
  }

  /** One `issue` per element that `lacks` flags, in order. */
  function Flagged<E>(ms: seq<E>, lacks: E -> bool, issue: AiIssue): (r: seq<AiIssue>)
    decreases |ms|
    ensures forall k :: 0 <= k < |r| ==> r[k] == issue
  {
    if ms == [] then []
    else
      var n := |ms| - 1;
      Flagged(ms[..n], lacks, issue) + (if lacks(ms[n]) then [issue] else [])
  }

  /** Nothing is flagged exactly when no element is. */
  lemma {:induction false} FlaggedEmptyIff<E>(ms: seq<E>, lacks: E -> bool, issue: AiIssue)
    ensures Flagged(ms, lacks, issue) == [] <==> forall k :: 0 <= k < |ms| ==> !lacks(ms[k])
  {
    if ms != [] {
      var n := |ms| - 1;
      FlaggedEmptyIff(ms[..n], lacks, issue);
      assert forall k :: 0 <= k < n ==> ms[..n][k] == ms[k];
      if Flagged(ms, lacks, issue) == [] {
        assert Flagged(ms[..n], lacks, issue) == [];
      }
    }
  }

  /** One issue per literal that lacks either key, in order. */
  function KeyIssues(ms: seq<string>, firstKey: string, secondKey: string, issue: AiIssue): (r: seq<AiIssue>)
    ensures forall k :: 0 <= k < |r| ==> r[k] == issue
  {
    Flagged(ms, LacksEither(firstKey, secondKey), issue)
  }

  /** No key issue exactly when every literal holds both keys. */
  lemma KeyIssuesEmptyIff(ms: seq<string>, firstKey: string, secondKey: string, issue: AiIssue)
    ensures KeyIssues(ms, firstKey, secondKey, issue) == [] <==> AllHaveKeys(ms, firstKey, secondKey)
  {
    FlaggedEmptyIff(ms, LacksEither(firstKey, secondKey), issue);
  }

  /** `texts[k]` is the text `f` gives the `k`-th finding. */
  predicate Paired<A>(kinds: seq<A>, texts: seq<string>, f: A -> string) {
    |texts| == |kinds| && forall k :: 0 <= k < |kinds| ==> texts[k] == f(kinds[k])
  }

  /** The texts of the findings, each pushed together with its suggestion. */
  predicate Reports(kinds: seq<AiIssue>, issues: seq<string>, suggestions: seq<string>) {
    Paired(kinds, issues, IssueText) && Paired(kinds, suggestions, SuggestionText)
  }

  /** The findings of a generated document, in the order the checks run. */
  function AiIssues(content: string): seq<AiIssue> {
    FrontmatterIssues(content) + ComponentIssues(content) + ChartKeyIssues(content) + MetricKeyIssues(content)
  }

  function FrontmatterIssues(content: string): (r: seq<AiIssue>)
    ensures forall k :: 0 <= k < |r| ==> r[k] == MissingFrontmatter
  {
    if Contains(content, "---") then [] else [MissingFrontmatter]
  }

  function ComponentIssues(content: string): (r: seq<AiIssue>)
    ensures forall k :: 0 <= k < |r| ==> r[k] == NoComponents
  {
    if NoKnownComponent(content) then [NoComponents] else []
  }

  function ChartKeyIssues(content: string): (r: seq<AiIssue>)
    ensures forall k :: 0 <= k < |r| ==> r[k] == BadChartData
  {
    KeyIssues(LiteralMatches(content, "data={["), "name:", "value:", BadChartData)
  }

  function MetricKeyIssues(content: string): (r: seq<AiIssue>)
    ensures forall k :: 0 <= k < |r| ==> r[k] == BadMetricsData
  {
    KeyIssues(LiteralMatches(content, "metrics={["), "label:", "value:", BadMetricsData)
  }

  /** One `forEach` pass over the literal matches: push the pair for each literal lacking a key. */
  method CheckLiteralKeys(ms: seq<string>, firstKey: string, secondKey: string, issue: AiIssue)
    returns (issues: seq<string>, suggestions: seq<string>)
    ensures Reports(KeyIssues(ms, firstKey, secondKey, issue), issues, suggestions)
  {
    issues, suggestions := PushFlagged(ms, LacksEither(firstKey, secondKey), issue);
  }

  /** The loop of such a pass: push the issue and its suggestion for each element `lacks` flags. */
  method PushFlagged<E>(ms: seq<E>, lacks: E -> bool, issue: AiIssue)
    returns (issues: seq<string>, suggestions: seq<string>)
    ensures Reports(Flagged(ms, lacks, issue), issues, suggestions)
  {
    issues := [];
    suggestions := [];
    ghost var found: seq<AiIssue> := [];
    var i := 0;
    while i < |ms|
      invariant 0 <= i <= |ms|
      invariant found == Flagged(ms[..i], lacks, issue)
      invariant Reports(found, issues, suggestions)
    {
      FlaggedStep(ms, i, lacks, issue);
      if lacks(ms[i]) {
        var issueText, suggestionText := IssueText(issue), SuggestionText(issue);
        ReportsOne(issue);
        ReportsAppend(found, issues, suggestions, [issue], [issueText], [suggestionText]);
        found, issues, suggestions := found + [issue], issues + [issueText], suggestions + [suggestionText];
      } else {
        assert found + [] == found;
      }
      i := i + 1;
    }
    assert ms[..i] == ms;
  }

  /** Walking one element further adds its issue, if it is flagged. */
  lemma FlaggedStep<E>(ms: seq<E>, i: nat, lacks: E -> bool, issue: AiIssue)
    requires i < |ms|
    ensures Flagged(ms[..i + 1], lacks, issue) == Flagged(ms[..i], lacks, issue) + (if lacks(ms[i]) then [issue] else [])
  {
    assert ms[..i + 1][..i] == ms[..i];
    assert ms[..i + 1][i] == ms[i];
  }

  /** One finding pushed with its own text and suggestion. */
  lemma ReportsOne(issue: AiIssue)
    ensures Reports([issue], [IssueText(issue)], [SuggestionText(issue)])
  {
    PairedOne(issue, IssueText);
    PairedOne(issue, SuggestionText);
  }

  lemma PairedOne<A>(x: A, f: A -> string)
    ensures Paired([x], [f(x)], f)
  {
  }

  /** Reports of consecutive groups of findings concatenate. */
  lemma ReportsAppend(a: seq<AiIssue>, ia: seq<string>, sa: seq<string>, b: seq<AiIssue>, ib: seq<string>, sb: seq<string>)
    requires Reports(a, ia, sa) && Reports(b, ib, sb)
    ensures Reports(a + b, ia + ib, sa + sb)
  {
    PairedAppend(a, ia, b, ib, IssueText);
    PairedAppend(a, sa, b, sb, SuggestionText);
  }

  lemma PairedAppend<A>(a: seq<A>, ta: seq<string>, b: seq<A>, tb: seq<string>, f: A -> string)
    requires Paired(a, ta, f) && Paired(b, tb, f)
    ensures Paired(a + b, ta + tb, f)
  {
    forall k | 0 <= k < |a + b|
      ensures (ta + tb)[k] == f((a + b)[k])
    {
      if k < |a| {
        assert (a + b)[k] == a[k] && (ta + tb)[k] == ta[k];
      } else {
        assert (a + b)[k] == b[k - |a|] && (ta + tb)[k] == tb[k - |a|];
      }
    }
  }

  /** The front matter check: push its pair when the text has no `---`. */
  method CheckFrontmatter(content: string) returns (issues: seq<string>, suggestions: seq<string>)
    ensures Reports(FrontmatterIssues(content), issues, suggestions)
  {
    issues, suggestions := [], [];
    if !Contains(content, "---") {
      ReportsOne(MissingFrontmatter);
      issues, suggestions := [IssueText(MissingFrontmatter)], [SuggestionText(MissingFrontmatter)];
    }
  }

  /** The component check: push its pair when no whitelisted component is found. */
  method CheckComponentsFound(content: string) returns (issues: seq<string>, suggestions: seq<string>)
    ensures Reports(ComponentIssues(content), issues, suggestions)
  {
    issues, suggestions := [], [];
    var found := FoundComponents(content);
    FoundComponentsEmptyIff(content);
    if |found| == 0 {
      ReportsOne(NoComponents);
      issues, suggestions := [IssueText(NoComponents)], [SuggestionText(NoComponents)];
    }
  }

  /**
   * `validateAIOutput`: the texts of the document's findings, each pushed
   * with its suggestion; valid exactly when there is no finding.
   */
  method ValidateAiOutput(content: string) returns (r: AiReport)
    ensures Reports(AiIssues(content), r.issues, r.suggestions)
    ensures r.valid <==> AiIssues(content) == []
  {
    var issues, suggestions := CheckFrontmatter(content);
    ghost var kinds := FrontmatterIssues(content);
    var componentIssues, componentSuggestions := CheckComponentsFound(content);
    ReportsAppend(kinds, issues, suggestions, ComponentIssues(content), componentIssues, componentSuggestions);
    issues, suggestions, kinds := issues + componentIssues, suggestions + componentSuggestions, kinds + ComponentIssues(content);
    var chartIssues, chartSuggestions := CheckLiteralKeys(LiteralMatches(content, "data={["), "name:", "value:", BadChartData);
    ReportsAppend(kinds, issues, suggestions, ChartKeyIssues(content), chartIssues, chartSuggestions);
    issues, suggestions, kinds := issues + chartIssues, suggestions + chartSuggestions, kinds + ChartKeyIssues(content);
    var metricIssues, metricSuggestions := CheckLiteralKeys(LiteralMatches(content, "metrics={["), "label:", "value:", BadMetricsData);
    ReportsAppend(kinds, issues, suggestions, MetricKeyIssues(content), metricIssues, metricSuggestions);
    issues, suggestions, kinds := issues + metricIssues, suggestions + metricSuggestions, kinds + MetricKeyIssues(content);
    assert kinds == AiIssues(content);
    r := AiReport(|issues| == 0, issues, suggestions);
  }

  /** The frontmatter issue is raised exactly when the text has no `---`, and then it comes first. */
  lemma MissingFrontmatterIff(content: string)
    ensures MissingFrontmatter in AiIssues(content) <==> !Contains(content, "---")
    ensures !Contains(content, "---") ==> AiIssues(content)[0] == MissingFrontmatter
  {
    var components, chart, metrics := ComponentIssues(content), ChartKeyIssues(content), MetricKeyIssues(content);
    assert MissingFrontmatter !in components && MissingFrontmatter !in chart && MissingFrontmatter !in metrics;
  }

  /** The component issue is raised exactly when no whitelisted `<Name` occurs in the text. */
  lemma NoComponentsIff(content: string)
    ensures NoComponents in AiIssues(content) <==> NoKnownComponent(content)
  {
    var frontmatter, chart, metrics := FrontmatterIssues(content), ChartKeyIssues(content), MetricKeyIssues(content);
    assert NoComponents !in frontmatter && NoComponents !in chart && NoComponents !in metrics;
  }

  /**
   * A document in which the lint's `<Name` scan finds a whitelisted
   * component raises no component issue here: the two checks agree on
   * what a component is.
   */
  lemma LintedComponentIsFound(content: string, k: nat)
    requires k < |Mdx.ComponentTokens(content)| && Mdx.ComponentTokens(content)[k] in Mdx.KnownComponents
    ensures NoComponents !in AiIssues(content)
  {
    NoComponentsIff(content);
  }

  /** A document raises no issue exactly when it has a `---`, opens some known component, and every literal holds its keys. */
  lemma AiOutputValidIff(content: string)
    ensures AiIssues(content) == [] <==>
      Contains(content, "---") && !NoKnownComponent(content) &&
      AllHaveKeys(LiteralMatches(content, "data={["), "name:", "value:") &&
      AllHaveKeys(LiteralMatches(content, "metrics={["), "label:", "value:")
  {
    KeyIssuesEmptyIff(LiteralMatches(content, "data={["), "name:", "value:", BadChartData);
    KeyIssuesEmptyIff(LiteralMatches(content, "metrics={["), "label:", "value:", BadMetricsData);
    assert |AiIssues(content)| == |FrontmatterIssues(content)| + |ComponentIssues(content)|
      + |ChartKeyIssues(content)| + |MetricKeyIssues(content)|;
  }

  // ---------------------------------------------------------------------
  // Normalising loosely shaped records
  // ---------------------------------------------------------------------

  /** `keys[i]` is the first of `keys` whose property on `item` is truthy. */
  predicate FirstTruthyAt(item: Js, keys: seq<string>, i: int) {
    0 <= i < |keys| && Truthy(Prop(item, keys[i])) && forall j :: 0 <= j < i ==> !Truthy(Prop(item, keys[j]))
  }

  /** `r` is the first truthy property of `item` among `keys`, or `fallback` when none is truthy. */
  ghost predicate IsFirstTruthy(item: Js, keys: seq<string>, fallback: Js, r: Js) {
    (exists i :: FirstTruthyAt(item, keys, i) && r == Prop(item, keys[i])) ||
    ((forall i :: 0 <= i < |keys| ==> !Truthy(Prop(item, keys[i]))) && r == fallback)
  }

  /** `item[keys[0]] || item[keys[1]] || … || fallback`. */
  function FirstTruthy(item: Js, keys: seq<string>, fallback: Js): (r: Js)
    ensures IsFirstTruthy(item, keys, fallback, r)
  {
    if keys == [] then fallback
    else if Truthy(Prop(item, keys[0])) then
      assert FirstTruthyAt(item, keys, 0);
      Prop(item, keys[0])
    else
      ShiftTruthy(item, keys);
      FirstTruthy(item, keys[1..], fallback)
  }

  /** Past a falsy first key, the first truthy key of the rest is the first truthy key of all. */
  lemma ShiftTruthy(item: Js, keys: seq<string>)
    requires keys != [] && !Truthy(Prop(item, keys[0]))
    ensures forall i :: FirstTruthyAt(item, keys[1..], i) ==> FirstTruthyAt(item, keys, i + 1)
  {
    forall i | FirstTruthyAt(item, keys[1..], i)
      ensures FirstTruthyAt(item, keys, i + 1)
    {
      forall j | 0 <= j < i + 1
        ensures !Truthy(Prop(item, keys[j]))
      {
        if j > 0 {
          assert keys[j] == keys[1..][j - 1];
        }
      }
    }
  }

  /** `keys[i]` is the first of `keys` whose property on `item` has `typeof` number. */
  predicate FirstNumberAt(item: Js, keys: seq<string>, i: int) {
    0 <= i < |keys| && Prop(item, keys[i]).Num? && forall j :: 0 <= j < i ==> !Prop(item, keys[j]).Num?
  }

  /** The chain of `typeof item[key] === 'number' ? item[key] : …` ending in `fallback`. */
  function FirstNumber(item: Js, keys: seq<string>, fallback: Number): (r: Number)
    ensures (forall i :: 0 <= i < |keys| ==> !Prop(item, keys[i]).Num?) ==> r == fallback
    ensures (exists i :: FirstNumberAt(item, keys, i) && Num(r) == Prop(item, keys[i])) ||
      ((forall i :: 0 <= i < |keys| ==> !Prop(item, keys[i]).Num?) && r == fallback)
  {
    if keys == [] then fallback
    else if Prop(item, keys[0]).Num? then
      assert FirstNumberAt(item, keys, 0);
      Prop(item, keys[0]).n
    else
      ShiftNumber(item, keys);
      FirstNumber(item, keys[1..], fallback)
  }

  /** Past a non-number first key, the first number key of the rest is the first number key of all. */
  lemma ShiftNumber(item: Js, keys: seq<string>)
    requires keys != [] && !Prop(item, keys[0]).Num?
    ensures forall i :: FirstNumberAt(item, keys[1..], i) ==> FirstNumberAt(item, keys, i + 1)
    ensures (forall i :: 0 <= i < |keys[1..]| ==> !Prop(item, keys[1..][i]).Num?) ==>
      forall i :: 0 <= i < |keys| ==> !Prop(item, keys[i]).Num?
  {
    forall i | FirstNumberAt(item, keys[1..], i)
      ensures FirstNumberAt(item, keys, i + 1)
    {
      forall j | 0 <= j < i + 1
        ensures !Prop(item, keys[j]).Num?
      {
        if j > 0 {
          assert keys[j] == keys[1..][j - 1];
        }
      }
    }
    assert forall i :: 1 <= i < |keys| ==> keys[i] == keys[1..][i - 1];
  }

  const NameKeys: seq<string> := ["name", "label", "category", "period"]
  const ValueKeys: seq<string> := ["value", "amount", "count", "revenue"]

  /** A normalised chart point; `name` is the value before `String()` is applied. */
  datatype FormattedPoint = FormattedPoint(name: Js, value: Number)

  /** One record of `formatDataForChart`. */
  function FormatPoint(item: map<string, Js>): (p: FormattedPoint)
    ensures Truthy(p.name)
    ensures IsFirstTruthy(Obj(item), NameKeys, Str("Unknown"), p.name)
    ensures (exists i :: FirstNumberAt(Obj(item), ValueKeys, i) && Num(p.value) == Prop(Obj(item), ValueKeys[i])) ||
      ((forall i :: 0 <= i < |ValueKeys| ==> !Prop(Obj(item), ValueKeys[i]).Num?) && p.value == Finite(0.0))
  {
    FormattedPoint(FirstTruthy(Obj(item), NameKeys, Str("Unknown")), FirstNumber(Obj(item), ValueKeys, Finite(0.0)))
  }

  /** `formatDataForChart`: one point per record, in order; the chart type plays no part. */
  function FormatDataForChart(data: seq<map<string, Js>>, chartType: string): (r: seq<FormattedPoint>)
    ensures |r| == |data|
    ensures forall i :: 0 <= i < |data| ==> r[i] == FormatPoint(data[i])
  {
    seq(|data|, i requires 0 <= i < |data| => FormatPoint(data[i]))
  }

  function PointRecord(p: FormattedPoint): map<string, Js> {
    map["name" := p.name, "value" := Num(p.value)]
  }

  /** Formatting already formatted points changes nothing. */
  lemma FormatDataForChartIdempotent(data: seq<map<string, Js>>, chartType: string)
    ensures var once := FormatDataForChart(data, chartType);
      FormatDataForChart(seq(|once|, i requires 0 <= i < |once| => PointRecord(once[i])), chartType) == once
  {
    var once := FormatDataForChart(data, chartType);
    forall i | 0 <= i < |once|
      ensures FormatPoint(PointRecord(once[i])) == once[i]
    {
      PointRecordFixed(once[i]);
    }
  }

  /** A point with a truthy name is read back from its own record unchanged. */
  lemma PointRecordFixed(p: FormattedPoint)
    requires Truthy(p.name)
    ensures FormatPoint(PointRecord(p)) == p
  {
    var rec := Obj(PointRecord(p));
    assert NameKeys[0] == "name" && ValueKeys[0] == "value";
    assert Prop(rec, "name") == p.name;
    assert Prop(rec, "value") == Num(p.value);
    assert FirstTruthy(rec, NameKeys, Str("Unknown")) == p.name;
    assert FirstNumber(rec, ValueKeys, Finite(0.0)) == p.value;
  }

  /** A normalised metric card: `labelText` and `value` are the values before `String()`/`Number()`. */
  datatype FormattedMetric = FormattedMetric(labelText: Js, value: Js, unit: Option<Js>, change: Option<Number>)

  /** One record of `formatMetricsData`. */
  function FormatMetric(item: map<string, Js>): (m: FormattedMetric)
    ensures Truthy(m.labelText)
    ensures IsFirstTruthy(Obj(item), ["label", "name"], Str("Metric"), m.labelText)
    ensures IsFirstTruthy(Obj(item), ["value", "amount"], Num(Finite(0.0)), m.value)
    ensures m.unit.Some? <==> Truthy(Prop(Obj(item), "unit"))
    ensures m.unit.Some? ==> m.unit.value == Prop(Obj(item), "unit")
    ensures m.change.Some? <==> Prop(Obj(item), "change").Num?
    ensures m.change.Some? ==> Num(m.change.value) == Prop(Obj(item), "change")
  {
    var o := Obj(item);
    FormattedMetric(
      FirstTruthy(o, ["label", "name"], Str("Metric")),
      FirstTruthy(o, ["value", "amount"], Num(Finite(0.0))),
      if Truthy(Prop(o, "unit")) then Some(Prop(o, "unit")) else None,
      if Prop(o, "change").Num? then Some(Prop(o, "change").n) else None)
  }

  /** `formatMetricsData`: one card per record, in order. */
  function FormatMetricsData(data: seq<map<string, Js>>): (r: seq<FormattedMetric>)
    ensures |r| == |data|
    ensures forall i :: 0 <= i < |data| ==> r[i] == FormatMetric(data[i])
  {
    seq(|data|, i requires 0 <= i < |data| => FormatMetric(data[i]))
  }

  /** The record a card is written back as: `unit` and `change` only when set. */
  function MetricRecord(m: FormattedMetric): map<string, Js> {
    var base := map["label" := m.labelText, "value" := m.value];
    var withUnit := if m.unit.Some? then base["unit" := m.unit.value] else base;
    if m.change.Some? then withUnit["change" := Num(m.change.value)] else withUnit
  }

  /** Formatting already formatted cards changes nothing. */
  lemma FormatMetricsDataIdempotent(data: seq<map<string, Js>>)
    ensures var once := FormatMetricsData(data);
      FormatMetricsData(seq(|once|, i requires 0 <= i < |once| => MetricRecord(once[i]))) == once
  {
    var once := FormatMetricsData(data);
    forall i | 0 <= i < |once|
      ensures FormatMetric(MetricRecord(once[i])) == once[i]
    {
      MetricRecordRoundTrip(once[i]);
    }
  }

  lemma MetricRecordRoundTrip(m: FormattedMetric)
    requires Truthy(m.labelText)
    requires m.unit.Some? ==> Truthy(m.unit.value)
    requires m.value == Num(Finite(0.0)) || Truthy(m.value)
    ensures FormatMetric(MetricRecord(m)) == m
  {
    var rec := Obj(MetricRecord(m));
    assert Prop(rec, "label") == m.labelText;
    assert Prop(rec, "value") == m.value;
    assert Prop(rec, "amount") == Undefined;
    assert Prop(rec, "unit") == (if m.unit.Some? then m.unit.value else Undefined);
    assert Prop(rec, "change") == (if m.change.Some? then Num(m.change.value) else Undefined);
  }
}
