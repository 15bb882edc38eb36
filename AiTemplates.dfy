/**
 * The presentation templates offered to the AI generator and the prompt
 * lookup over them.
 */
module AiTemplates {
  import opened Wrappers
  import opened JsValues
  import opened Strings
  import Validation
  import Mdx

  // ---------------------------------------------------------------------
  // Templates and the prompt lookup
  // ---------------------------------------------------------------------

  /** One component slot of a template, with the props it requires and allows. */
  datatype ComponentSlot = ComponentSlot(component: string, requiredProps: seq<string>, optionalProps: seq<string>)

  datatype DataKind = ChartKind | MetricsKind | TimelineKind | ImagesKind

  /** A data requirement of a template: the kind of payload, its format text and its example payload. */
  datatype DataRequirement = DataRequirement(kind: DataKind, format: string, example: Js)

  datatype Template = Template(
    kind: string,
    structure: seq<ComponentSlot>,
    suggestedComponents: seq<string>,
    dataRequirements: seq<DataRequirement>)

  const MetricsFormat: string := "{label: string, value: number, unit?: string, change?: number}[]"
  const ChartFormat: string := "{name: string, value: number}[]"

  function ChartPoint(name: string, value: real): Js {
    Obj(map["name" := Str(name), "value" := Num(Finite(value))])
  }

  function MetricCard(labelText: string, value: real, unit: string, change: real): Js {
    Obj(map["label" := Str(labelText), "value" := Num(Finite(value)), "unit" := Str(unit), "change" := Num(Finite(change))])
  }

  const BusinessResults: Template := Template(
    "business-results",
    [ ComponentSlot("Hero", ["title"], ["subtitle", "highlight", "highlightLabel", "layout"]),
      ComponentSlot("MetricGrid", ["metrics"], ["columns"]),
      ComponentSlot("ChartSection", ["title", "type", "data"], ["colorScheme", "layout", "children"]),
      ComponentSlot("CalloutBox", ["emphasis", "children"], []) ],
    ["Hero", "MetricGrid", "ChartSection", "CalloutBox", "Section"],
    [ DataRequirement(MetricsKind, MetricsFormat, Arr([MetricCard("Revenue", 2.4, "M", 34.0)])),
      DataRequirement(ChartKind, ChartFormat, Arr([ChartPoint("Q1", 1.2), ChartPoint("Q2", 1.8)])) ])

  const ProductDemo: Template := Template(
    "product-demo",
    [ ComponentSlot("Hero", ["title"], ["subtitle", "highlight", "highlightLabel"]),
      ComponentSlot("ImageGallery", ["images"], ["layout"]),
      ComponentSlot("Timeline", ["items"], ["orientation"]),
      ComponentSlot("MetricGrid", ["metrics"], ["columns"]) ],
    ["Hero", "ImageGallery", "Timeline", "MetricGrid", "CalloutBox"],
    [ DataRequirement(ImagesKind, "{src: string, alt: string, caption?: string}[]",
        Arr([Obj(map["src" := Str("/demo.jpg"), "alt" := Str("Product demo"), "caption" := Str("Main interface")])])),
      DataRequirement(TimelineKind, "{title: string, description?: string, status?: string}[]",
        Arr([Obj(map["title" := Str("Setup"), "description" := Str("Easy installation"), "status" := Str("completed")])])) ])

  const QuarterlyReview: Template := Template(
    "quarterly-review",
    [ ComponentSlot("Hero", ["title"], ["subtitle", "highlight", "highlightLabel"]),
      ComponentSlot("MetricGrid", ["metrics"], ["columns"]),
      ComponentSlot("ChartSection", ["title", "type", "data"], ["colorScheme", "layout"]),
      ComponentSlot("Timeline", ["items"], ["orientation"]) ],
    ["Hero", "MetricGrid", "ChartSection", "Timeline", "CalloutBox", "Section"],
    [ DataRequirement(MetricsKind, MetricsFormat, Arr([MetricCard("Revenue", 2.4, "M", 15.0)])),
      DataRequirement(ChartKind, ChartFormat, Arr([ChartPoint("Q1", 100.0), ChartPoint("Q2", 120.0)])) ])

  /** The template table, keyed by presentation type. */
  const Templates: map<string, Template> := map[
    "business-results" := BusinessResults,
    "product-demo" := ProductDemo,
    "quarterly-review" := QuarterlyReview ]

  /** What the prompt is built from: the template found, the title and the optional custom requirements. */
  datatype PromptRequest = PromptRequest(template: Template, title: string, customRequirements: Option<string>)

  function UnknownTypeMessage(presentationType: string): string {
    "Unknown presentation type: " + presentationType
  }

  /** `generateAIPrompt`: the template of the given type, or the error it throws for an unknown type. */
  function GenerateAiPrompt(presentationType: string, title: string, customRequirements: Option<string>): (r: Result<PromptRequest, string>)
    ensures r.Success? <==> presentationType in {"business-results", "product-demo", "quarterly-review"}
    ensures r.Failure? ==> r.error == UnknownTypeMessage(presentationType)
    ensures r.Success? ==>
      r.value.template.kind == presentationType && r.value.title == title && r.value.customRequirements == customRequirements
  {
    if presentationType in Templates then
      Success(PromptRequest(Templates[presentationType], title, customRequirements))
    else
      Failure(UnknownTypeMessage(presentationType))
  }

  /** Every component a template names is one the document lint accepts. */
  lemma TemplatesUseKnownComponents()
    ensures forall key :: key in Templates ==> UsesKnownComponents(Templates[key])
  {
    forall key | key in Templates
      ensures UsesKnownComponents(Templates[key])
    {
      TemplateKeys(key);
    }
  }

  predicate UsesKnownComponents(t: Template) {
    (forall k :: 0 <= k < |t.structure| ==> t.structure[k].component in Mdx.KnownComponents) &&
    (forall k :: 0 <= k < |t.suggestedComponents| ==> t.suggestedComponents[k] in Mdx.KnownComponents)
  }

  /** The table has exactly the three types, each keyed by its own `type`. */
  lemma TemplateKeys(key: string)
    ensures key in Templates <==> key == "business-results" || key == "product-demo" || key == "quarterly-review"
    ensures key == "business-results" ==> Templates[key] == BusinessResults
    ensures key == "product-demo" ==> Templates[key] == ProductDemo
    ensures key == "quarterly-review" ==> Templates[key] == QuarterlyReview
    ensures key in Templates ==> Templates[key].kind == key
  {
  }

  /** A data requirement's example passes the validator of its kind. */
  predicate ExampleValidates(req: DataRequirement) {
    match req.kind
    case ChartKind => Validation.Outcome(req.example, "Chart", Validation.CheckChartItem).valid
    case MetricsKind => Validation.Outcome(req.example, "Metric", Validation.CheckMetricItem).valid
    case TimelineKind => Validation.Outcome(req.example, "Timeline", Validation.CheckTimelineItem).valid
    case ImagesKind => Validation.Outcome(req.example, "Image", Validation.CheckImageItem).valid
  }

  /** A non-empty example array validates when each of its items is accepted. */
  lemma ExampleAccepted<T>(items: seq<Js>, check: (Js, nat) -> Validation.Checked<T>, kind: string)
    requires |items| > 0
    requires forall i :: 0 <= i < |items| ==> check(items[i], i).Accept?
    ensures Validation.Outcome(Arr(items), kind, check).valid
  {
    Validation.NoRejectionIff(items, check);
  }

  /** The examples a template shows the generator are themselves accepted by the validators. */
  lemma TemplateExamplesValidate()
    ensures forall key :: key in Templates ==>
      forall k :: 0 <= k < |Templates[key].dataRequirements| ==> ExampleValidates(Templates[key].dataRequirements[k])
  {
    BusinessResultsExamples();
    ProductDemoExamples();
    QuarterlyReviewExamples();
    forall key | key in Templates
      ensures forall k :: 0 <= k < |Templates[key].dataRequirements| ==> ExampleValidates(Templates[key].dataRequirements[k])
    {
      TemplateKeys(key);
    }
  }

  lemma BusinessResultsExamples()
    ensures forall k :: 0 <= k < |BusinessResults.dataRequirements| ==> ExampleValidates(BusinessResults.dataRequirements[k])
  {
    MetricExampleAccepted("Revenue", 2.4, "M", 34.0);
    ChartExampleAccepted("Q1", 1.2, "Q2", 1.8);
  }

  lemma QuarterlyReviewExamples()
    ensures forall k :: 0 <= k < |QuarterlyReview.dataRequirements| ==> ExampleValidates(QuarterlyReview.dataRequirements[k])
  {
    MetricExampleAccepted("Revenue", 2.4, "M", 15.0);
    ChartExampleAccepted("Q1", 100.0, "Q2", 120.0);
  }

  lemma ProductDemoExamples()
    ensures forall k :: 0 <= k < |ProductDemo.dataRequirements| ==> ExampleValidates(ProductDemo.dataRequirements[k])
  {
    ImageExampleAccepted();
    TimelineExampleAccepted();
  }

  lemma ImageExampleAccepted()
    ensures Validation.Outcome(Arr([Obj(map["src" := Str("/demo.jpg"), "alt" := Str("Product demo"), "caption" := Str("Main interface")])]),
      "Image", Validation.CheckImageItem).valid
  {
    var image := Obj(map["src" := Str("/demo.jpg"), "alt" := Str("Product demo"), "caption" := Str("Main interface")]);
    assert Prop(image, "src") == Str("/demo.jpg") && Prop(image, "alt") == Str("Product demo");
    assert Prop(image, "caption") == Str("Main interface");
    ExampleAccepted([image], Validation.CheckImageItem, "Image");
  }

  lemma TimelineExampleAccepted()
    ensures Validation.Outcome(Arr([Obj(map["title" := Str("Setup"), "description" := Str("Easy installation"), "status" := Str("completed")])]),
      "Timeline", Validation.CheckTimelineItem).valid
  {
    var step := Obj(map["title" := Str("Setup"), "description" := Str("Easy installation"), "status" := Str("completed")]);
    assert Prop(step, "title") == Str("Setup") && Prop(step, "description") == Str("Easy installation");
    assert Prop(step, "date") == Undefined && Prop(step, "status") == Str("completed");
    assert Validation.StatusOf(Str("completed")) == Some(Validation.Completed);
    ExampleAccepted([step], Validation.CheckTimelineItem, "Timeline");
  }

  lemma MetricExampleAccepted(labelText: string, value: real, unit: string, change: real)
    ensures Validation.Outcome(Arr([MetricCard(labelText, value, unit, change)]), "Metric", Validation.CheckMetricItem).valid
  {
    var card := MetricCard(labelText, value, unit, change);
    assert Prop(card, "label") == Str(labelText) && Prop(card, "value") == Num(Finite(value));
    assert Prop(card, "unit") == Str(unit) && Prop(card, "change") == Num(Finite(change));
    ExampleAccepted([card], Validation.CheckMetricItem, "Metric");
  }

  lemma ChartExampleAccepted(first: string, a: real, second: string, b: real)
    ensures Validation.Outcome(Arr([ChartPoint(first, a), ChartPoint(second, b)]), "Chart", Validation.CheckChartItem).valid
  {
    assert Prop(ChartPoint(first, a), "name") == Str(first) && Prop(ChartPoint(first, a), "value") == Num(Finite(a));
    assert Prop(ChartPoint(second, b), "name") == Str(second) && Prop(ChartPoint(second, b), "value") == Num(Finite(b));
    ExampleAccepted([ChartPoint(first, a), ChartPoint(second, b)], Validation.CheckChartItem, "Chart");
  }
}
