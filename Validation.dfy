/**
 * Runtime validation of the payloads embedded in presentation documents
 * (chart series, metric cards, timeline entries, images), the fallback
 * tables used when a payload is rejected, and the enum normalisers for
 * component props.
 *
 * The four validators share one element loop, `ValidatePayload`; each
 * payload kind contributes the early-return chain that checks one element
 * (`CheckChartItem`, `CheckMetricItem`, `CheckTimelineItem`,
 * `CheckImageItem`). As in the code, `data` is returned for every array
 * input, also when some elements were rejected; only the callers fall
 * back to placeholder data (`ChartDataToRender`, `MetricsToRender`).
 */
module Validation {
  import opened Wrappers
  import opened JsValues
  import opened Strings

  /** `{valid, data?, errors}`; `data` is `None` exactly when it is absent from the object. */
  datatype ValidationResult<T> = ValidationResult(valid: bool, data: Option<seq<T>>, errors: seq<string>)

  /** What checking one element yields: the record pushed, or the one error pushed. */
  datatype Checked<T> = Accept(item: T) | Reject(message: string)

  datatype ChartData = ChartData(name: string, value: Number)
  /** `labelText` is the `label` field (`label` is a Dafny keyword). */
  datatype MetricData = MetricData(labelText: string, value: Number, unit: Option<string>, change: Option<Number>)
  datatype TimelineStatus = Completed | Current | Upcoming
  datatype TimelineItem = TimelineItem(title: string, description: Option<string>, date: Option<string>, status: Option<TimelineStatus>)
  datatype ImageItem = ImageItem(src: string, alt: string, caption: Option<string>)

  // ---------------------------------------------------------------------
  // The shared element loop and its specification
  // ---------------------------------------------------------------------

  /** The records pushed while walking `items` in order (last-element recursion, as the loop appends). */
  function Accepted<T>(items: seq<Js>, check: (Js, nat) -> Checked<T>): seq<T>
    decreases |items|
  {
    if items == [] then []
    else
      var n := |items| - 1;
      Accepted(items[..n], check) + (match check(items[n], n) case Accept(x) => [x] case Reject(_) => [])
  }

  /** The errors pushed while walking `items` in order. */
  function Rejected<T>(items: seq<Js>, check: (Js, nat) -> Checked<T>): seq<string>
    decreases |items|
  {
    if items == [] then []
    else
      var n := |items| - 1;
      Rejected(items[..n], check) + (match check(items[n], n) case Accept(_) => [] case Reject(m) => [m])
  }

  /** Every element yields exactly one record or exactly one error. */
  lemma {:induction false} OutcomeCount<T>(items: seq<Js>, check: (Js, nat) -> Checked<T>)
    ensures |Accepted(items, check)| + |Rejected(items, check)| == |items|
  {
    if items != [] {
      OutcomeCount(items[..|items| - 1], check);
    }
  }

  /** No error is pushed exactly when every element is accepted. */
  lemma {:induction false} NoRejectionIff<T>(items: seq<Js>, check: (Js, nat) -> Checked<T>)
    ensures Rejected(items, check) == [] <==> forall i :: 0 <= i < |items| ==> check(items[i], i).Accept?
  {
    if items != [] {
      var n := |items| - 1;
      NoRejectionIff(items[..n], check);
      assert forall i :: 0 <= i < n ==> items[..n][i] == items[i];
      if Rejected(items, check) == [] {
        assert Rejected(items[..n], check) == [];
      }
    }
  }

  /**
   * The records pushed are, in input order, exactly those of the accepted
   * elements: `idx` lists the accepted positions, strictly increasing, and
   * record `k` is what element `idx[k]` yielded.
   */
  lemma AcceptedIndices<T>(items: seq<Js>, check: (Js, nat) -> Checked<T>) returns (idx: seq<nat>)
    ensures |idx| == |Accepted(items, check)|
    ensures forall k :: 0 <= k < |idx| ==> idx[k] < |items| && check(items[idx[k]], idx[k]) == Accept(Accepted(items, check)[k])
    ensures forall k, l :: 0 <= k < l < |idx| ==> idx[k] < idx[l]
    ensures forall i :: 0 <= i < |items| && check(items[i], i).Accept? ==> i in idx
  {
    var pick := (x, i) => AcceptanceOf(check(x, i));
    idx := PickedIndices(items, pick);
    AcceptedIsPicked(items, check);
    forall k | 0 <= k < |idx|
      ensures check(items[idx[k]], idx[k]) == Accept(Accepted(items, check)[k])
    {
      assert pick(items[idx[k]], idx[k]) == Some(Accepted(items, check)[k]);
    }
  }

  /** The record an element check yields, if it accepts. */
  function AcceptanceOf<T>(c: Checked<T>): Option<T> {
    match c
    case Accept(x) => Some(x)
    case Reject(_) => None
  }

  /** The records are what `AcceptanceOf` picks from the element checks. */
  lemma {:induction false} AcceptedIsPicked<T>(items: seq<Js>, check: (Js, nat) -> Checked<T>)
    ensures Accepted(items, check) == Picked(items, (x, i) => AcceptanceOf(check(x, i)))
  {
    if items != [] {
      AcceptedIsPicked(items[..|items| - 1], check);
    }
  }

  /** The error an element check yields, if it rejects. */
  function RejectionOf<T>(c: Checked<T>): Option<string> {
    match c
    case Accept(_) => None
    case Reject(m) => Some(m)
  }

  /** The values `pick` yields while walking `items` in order. */
  function Picked<E>(items: seq<Js>, pick: (Js, nat) -> Option<E>): seq<E>
    decreases |items|
  {
    if items == [] then []
    else
      var n := |items| - 1;
      Picked(items[..n], pick) + (match pick(items[n], n) case None => [] case Some(e) => [e])
  }

  /** `Picked` keeps, in input order, exactly the positions where `pick` yields a value. */
  lemma {:induction false} PickedIndices<E>(items: seq<Js>, pick: (Js, nat) -> Option<E>) returns (idx: seq<nat>)
    ensures |idx| == |Picked(items, pick)|
    ensures forall k :: 0 <= k < |idx| ==> idx[k] < |items| && pick(items[idx[k]], idx[k]) == Some(Picked(items, pick)[k])
    ensures forall k, l :: 0 <= k < l < |idx| ==> idx[k] < idx[l]
    ensures forall i :: 0 <= i < |items| && pick(items[i], i).Some? ==> i in idx
  {
    if items == [] {
      idx := [];
    } else {
      var n := |items| - 1;
      var prefix := items[..n];
      var before := PickedIndices(prefix, pick);
      var rest := Picked(prefix, pick);
      assert forall i :: 0 <= i < n ==> prefix[i] == items[i];
      match pick(items[n], n) {
        case Some(x) =>
          assert Picked(items, pick) == rest + [x];
          idx := before + [n];
          forall k | 0 <= k < |idx|
            ensures idx[k] < |items| && pick(items[idx[k]], idx[k]) == Some(Picked(items, pick)[k])
          {
            if k < |before| {
              assert idx[k] == before[k] && items[before[k]] == prefix[before[k]];
            }
          }
        case None =>
          assert Picked(items, pick) == rest;
          idx := before;
          forall k | 0 <= k < |idx|
            ensures idx[k] < |items| && pick(items[idx[k]], idx[k]) == Some(Picked(items, pick)[k])
          {
            assert items[before[k]] == prefix[before[k]];
          }
      }
    }
  }

  /** The errors are what `RejectionOf` picks from the element checks. */
  lemma {:induction false} RejectedIsPicked<T>(items: seq<Js>, check: (Js, nat) -> Checked<T>)
    ensures Rejected(items, check) == Picked(items, (x, i) => RejectionOf(check(x, i)))
  {
    if items != [] {
      RejectedIsPicked(items[..|items| - 1], check);
    }
  }

  /**
   * The errors pushed are, in input order, exactly those of the rejected
   * elements: `idx` lists the rejected positions, strictly increasing.
   */
  lemma RejectedIndices<T>(items: seq<Js>, check: (Js, nat) -> Checked<T>) returns (idx: seq<nat>)
    ensures |idx| == |Rejected(items, check)|
    ensures forall k :: 0 <= k < |idx| ==> idx[k] < |items| && check(items[idx[k]], idx[k]) == Reject(Rejected(items, check)[k])
    ensures forall k, l :: 0 <= k < l < |idx| ==> idx[k] < idx[l]
    ensures forall i :: 0 <= i < |items| && check(items[i], i).Reject? ==> i in idx
  {
    var pick := (x, i) => RejectionOf(check(x, i));
    idx := PickedIndices(items, pick);
    RejectedIsPicked(items, check);
    forall k | 0 <= k < |idx|
      ensures check(items[idx[k]], idx[k]) == Reject(Rejected(items, check)[k])
    {
      assert pick(items[idx[k]], idx[k]) == Some(Rejected(items, check)[k]);
    }
  }

  /** When each element yields its own record, the records are handed back unchanged and nothing is rejected. */
  lemma {:induction false} AcceptEvery<T>(items: seq<Js>, check: (Js, nat) -> Checked<T>, data: seq<T>)
    requires |items| == |data|
    requires forall i :: 0 <= i < |items| ==> check(items[i], i) == Accept(data[i])
    ensures Accepted(items, check) == data && Rejected(items, check) == []
  {
    if items != [] {
      var n := |items| - 1;
      assert forall i :: 0 <= i < n ==> items[..n][i] == items[i];
      AcceptEvery(items[..n], check, data[..n]);
      assert data == data[..n] + [data[n]];
    }
  }

  /** A well-formedness predicate holds of every record pushed when the element check only accepts such records. */
  lemma AcceptedSatisfy<T>(items: seq<Js>, check: (Js, nat) -> Checked<T>, wellFormed: T -> bool)
    requires forall i :: 0 <= i < |items| && check(items[i], i).Accept? ==> wellFormed(check(items[i], i).item)
    ensures forall k :: 0 <= k < |Accepted(items, check)| ==> wellFormed(Accepted(items, check)[k])
  {
    var idx := AcceptedIndices(items, check);
  }

  /** The result the validator of one payload kind returns for `data`. */
  function Outcome<T>(data: Js, kind: string, check: (Js, nat) -> Checked<T>): (r: ValidationResult<T>)
    ensures r.valid <==> r.errors == []
    ensures !data.Arr? ==> r == ValidationResult(false, None, [kind + " data must be an array"])
    ensures data == Arr([]) ==> r == ValidationResult(false, None, [kind + " data cannot be empty"])
    ensures data.Arr? && data.elems != [] ==> r.data.Some? && |r.data.value| + |r.errors| == |data.elems|
  {
    if !data.Arr? then ValidationResult(false, None, [kind + " data must be an array"])
    else if |data.elems| == 0 then ValidationResult(false, None, [kind + " data cannot be empty"])
    else
      OutcomeCount(data.elems, check);
      var errors := Rejected(data.elems, check);
      ValidationResult(errors == [], Some(Accepted(data.elems, check)), errors)
  }

  /** A valid result holds one record per input element: every element was accepted. */
  lemma ValidMeansAllAccepted<T>(data: Js, kind: string, check: (Js, nat) -> Checked<T>)
    ensures Outcome(data, kind, check).valid <==>
      data.Arr? && data.elems != [] && forall i :: 0 <= i < |data.elems| ==> check(data.elems[i], i).Accept?
    ensures Outcome(data, kind, check).valid ==> |Outcome(data, kind, check).data.value| == |data.elems|
  {
    if data.Arr? && data.elems != [] {
      NoRejectionIff(data.elems, check);
      OutcomeCount(data.elems, check);
    }
  }

  /**
   * The loop shared by the four validators: the array and emptiness checks
   * with their early returns, then one pass over the elements pushing a
   * record or an error for each.
   */
  method ValidatePayload<T>(data: Js, kind: string, check: (Js, nat) -> Checked<T>) returns (r: ValidationResult<T>)
    ensures r == Outcome(data, kind, check)
  {
    if !data.Arr? {
      return ValidationResult(false, None, [kind + " data must be an array"]);
    }
    var items := data.elems;
    if |items| == 0 {
      return ValidationResult(false, None, [kind + " data cannot be empty"]);
    }
    var errors: seq<string> := [];
    var validated: seq<T> := [];
    var i := 0;
    while i < |items|
      invariant 0 <= i <= |items|
      invariant validated == Accepted(items[..i], check)
      invariant errors == Rejected(items[..i], check)
    {
      assert items[..i + 1][..i] == items[..i];
      match check(items[i], i) {
        case Accept(x) => validated := validated + [x];
        case Reject(m) => errors := errors + [m];
      }
      i := i + 1;
    }
    assert items[..i] == items;
    r := ValidationResult(|errors| == 0, Some(validated), errors);
  }

  // ---------------------------------------------------------------------
  // Element checks, one per payload kind
  // ---------------------------------------------------------------------

  /** `!item || typeof item !== 'object'` fails: a non-null object or array. */
  predicate IsObject(item: Js) {
    Truthy(item) && TypeOf(item) == "object"
  }

  /** An optional string field is absent (`undefined`) or a string. */
  predicate OptionalString(v: Js) {
    v.Undefined? || v.Str?
  }

  /** An optional number field is absent (`undefined`) or a finite number. */
  predicate OptionalFiniteNumber(v: Js) {
    v.Undefined? || IsFiniteNumber(v)
  }

  /** The record field `o` is the copied JavaScript field `v`: absent when `v` is `undefined`. */
  predicate CopiedString(v: Js, o: Option<string>) {
    (o.None? && v.Undefined?) || (o.Some? && v == Str(o.value))
  }

  predicate CopiedNumber(v: Js, o: Option<Number>) {
    (o.None? && v.Undefined?) || (o.Some? && v == Num(o.value))
  }

  function AtIndex(what: string, index: nat): string {
    what + " at index " + NatToString(index)
  }

  /** One element of a chart series: `{name: string, value: number}`. */
  function CheckChartItem(item: Js, index: nat): (r: Checked<ChartData>)
    ensures r.Accept? <==> IsObject(item) && Prop(item, "name").Str? && IsFiniteNumber(Prop(item, "value"))
    ensures r.Accept? ==> Prop(item, "name") == Str(r.item.name) && Prop(item, "value") == Num(r.item.value)
    ensures !IsObject(item) ==> r == Reject(AtIndex("Item", index) + " must be an object")
    ensures IsObject(item) && !Prop(item, "name").Str? ==>
      r == Reject(AtIndex("Item", index) + " must have a 'name' property of type string")
    ensures IsObject(item) && Prop(item, "name").Str? && !IsFiniteNumber(Prop(item, "value")) ==>
      r == Reject(AtIndex("Item", index) + " must have a 'value' property of type number")
  {
    if !Truthy(item) || TypeOf(item) != "object" then
      Reject(AtIndex("Item", index) + " must be an object")
    else if TypeOf(Prop(item, "name")) != "string" then
      Reject(AtIndex("Item", index) + " must have a 'name' property of type string")
    else
      var value := Prop(item, "value");
      if TypeOf(value) != "number" || !value.n.Finite? then
        Reject(AtIndex("Item", index) + " must have a 'value' property of type number")
      else
        Accept(ChartData(Prop(item, "name").s, value.n))
  }

  /** One metric card: `{label: string, value: number, unit?: string, change?: number}`. */
  function CheckMetricItem(item: Js, index: nat): (r: Checked<MetricData>)
    ensures r.Accept? <==>
      IsObject(item) && Prop(item, "label").Str? && IsFiniteNumber(Prop(item, "value"))
      && OptionalString(Prop(item, "unit")) && OptionalFiniteNumber(Prop(item, "change"))
    ensures r.Accept? ==>
      Prop(item, "label") == Str(r.item.labelText) && Prop(item, "value") == Num(r.item.value)
      && CopiedString(Prop(item, "unit"), r.item.unit) && CopiedNumber(Prop(item, "change"), r.item.change)
    ensures !IsObject(item) ==> r == Reject(AtIndex("Metric", index) + " must be an object")
    ensures IsObject(item) && !Prop(item, "label").Str? ==>
      r == Reject(AtIndex("Metric", index) + " must have a 'label' property of type string")
    ensures IsObject(item) && Prop(item, "label").Str? && !IsFiniteNumber(Prop(item, "value")) ==>
      r == Reject(AtIndex("Metric", index) + " must have a 'value' property of type number")
    ensures (IsObject(item) && Prop(item, "label").Str? && IsFiniteNumber(Prop(item, "value"))
      && !OptionalString(Prop(item, "unit"))) ==>
      r == Reject(AtIndex("Metric", index) + " 'unit' must be a string if provided")
    ensures (IsObject(item) && Prop(item, "label").Str? && IsFiniteNumber(Prop(item, "value"))
      && OptionalString(Prop(item, "unit")) && !OptionalFiniteNumber(Prop(item, "change"))) ==>
      r == Reject(AtIndex("Metric", index) + " 'change' must be a number if provided")
  {
    if !Truthy(item) || TypeOf(item) != "object" then
      Reject(AtIndex("Metric", index) + " must be an object")
    else if TypeOf(Prop(item, "label")) != "string" then
      Reject(AtIndex("Metric", index) + " must have a 'label' property of type string")
    else
      var value := Prop(item, "value");
      if TypeOf(value) != "number" || !value.n.Finite? then
        Reject(AtIndex("Metric", index) + " must have a 'value' property of type number")
      else
        var metric := MetricData(Prop(item, "label").s, value.n, None, None);
        var unit := Prop(item, "unit");
        if !unit.Undefined? && TypeOf(unit) != "string" then
          Reject(AtIndex("Metric", index) + " 'unit' must be a string if provided")
        else
          var metric := if !unit.Undefined? then metric.(unit := Some(unit.s)) else metric;
          var change := Prop(item, "change");
          if !change.Undefined? && (TypeOf(change) != "number" || !change.n.Finite?) then
            Reject(AtIndex("Metric", index) + " 'change' must be a number if provided")
          else
            Accept(if !change.Undefined? then metric.(change := Some(change.n)) else metric)
  }

  /** The three allowed timeline statuses, in the order the error message lists them. */
  const StatusNames: seq<string> := ["completed", "current", "upcoming"]

  function StatusName(st: TimelineStatus): string {
    match st
    case Completed => "completed"
    case Current => "current"
    case Upcoming => "upcoming"
  }

  /** `validStatuses.includes(v)`: the status a string value names, if any. */
  function StatusOf(v: Js): (r: Option<TimelineStatus>)
    ensures r.Some? <==> v.Str? && v.s in StatusNames
    ensures r.Some? ==> v == Str(StatusName(r.value))
  {
    if v == Str("completed") then Some(Completed)
    else if v == Str("current") then Some(Current)
    else if v == Str("upcoming") then Some(Upcoming)
    else None
  }

  /** One timeline entry: `{title: string, description?: string, date?: string, status?: TimelineStatus}`. */
  function CheckTimelineItem(item: Js, index: nat): (r: Checked<TimelineItem>)
    ensures r.Accept? <==>
      IsObject(item) && Prop(item, "title").Str?
      && OptionalString(Prop(item, "description")) && OptionalString(Prop(item, "date"))
      && (Prop(item, "status").Undefined? || StatusOf(Prop(item, "status")).Some?)
    ensures r.Accept? ==>
      Prop(item, "title") == Str(r.item.title)
      && CopiedString(Prop(item, "description"), r.item.description) && CopiedString(Prop(item, "date"), r.item.date)
      && (r.item.status.None? <==> Prop(item, "status").Undefined?)
      && (r.item.status.Some? ==> Prop(item, "status") == Str(StatusName(r.item.status.value)))
    ensures !IsObject(item) ==> r == Reject(AtIndex("Timeline item", index) + " must be an object")
    ensures IsObject(item) && !Prop(item, "title").Str? ==>
      r == Reject(AtIndex("Timeline item", index) + " must have a 'title' property of type string")
    ensures IsObject(item) && Prop(item, "title").Str? && !OptionalString(Prop(item, "description")) ==>
      r == Reject(AtIndex("Timeline item", index) + " 'description' must be a string if provided")
    ensures (IsObject(item) && Prop(item, "title").Str? && OptionalString(Prop(item, "description"))
      && !OptionalString(Prop(item, "date"))) ==>
      r == Reject(AtIndex("Timeline item", index) + " 'date' must be a string if provided")
    ensures (IsObject(item) && Prop(item, "title").Str? && OptionalString(Prop(item, "description"))
      && OptionalString(Prop(item, "date")) && !Prop(item, "status").Undefined? && StatusOf(Prop(item, "status")).None?) ==>
      r == Reject(AtIndex("Timeline item", index) + " 'status' must be one of: completed, current, upcoming")
  {
    if !Truthy(item) || TypeOf(item) != "object" then
      Reject(AtIndex("Timeline item", index) + " must be an object")
    else if TypeOf(Prop(item, "title")) != "string" then
      Reject(AtIndex("Timeline item", index) + " must have a 'title' property of type string")
    else
      var timelineItem := TimelineItem(Prop(item, "title").s, None, None, None);
      var description := Prop(item, "description");
      if !description.Undefined? && TypeOf(description) != "string" then
        Reject(AtIndex("Timeline item", index) + " 'description' must be a string if provided")
      else
        var timelineItem := if !description.Undefined? then timelineItem.(description := Some(description.s)) else timelineItem;
        var date := Prop(item, "date");
        if !date.Undefined? && TypeOf(date) != "string" then
          Reject(AtIndex("Timeline item", index) + " 'date' must be a string if provided")
        else
          var timelineItem := if !date.Undefined? then timelineItem.(date := Some(date.s)) else timelineItem;
          var status := Prop(item, "status");
          if !status.Undefined? && StatusOf(status).None? then
            Reject(AtIndex("Timeline item", index) + " 'status' must be one of: completed, current, upcoming")
          else
            Accept(if !status.Undefined? then timelineItem.(status := StatusOf(status)) else timelineItem)
  }

  /** One gallery image: `{src: string, alt: string, caption?: string}`. */
  function CheckImageItem(item: Js, index: nat): (r: Checked<ImageItem>)
    ensures r.Accept? <==>
      IsObject(item) && Prop(item, "src").Str? && Prop(item, "alt").Str? && OptionalString(Prop(item, "caption"))
    ensures r.Accept? ==>
      Prop(item, "src") == Str(r.item.src) && Prop(item, "alt") == Str(r.item.alt)
      && CopiedString(Prop(item, "caption"), r.item.caption)
    ensures !IsObject(item) ==> r == Reject(AtIndex("Image", index) + " must be an object")
    ensures IsObject(item) && !Prop(item, "src").Str? ==>
      r == Reject(AtIndex("Image", index) + " must have a 'src' property of type string")
    ensures IsObject(item) && Prop(item, "src").Str? && !Prop(item, "alt").Str? ==>
      r == Reject(AtIndex("Image", index) + " must have an 'alt' property of type string")
    ensures IsObject(item) && Prop(item, "src").Str? && Prop(item, "alt").Str? && !OptionalString(Prop(item, "caption")) ==>
      r == Reject(AtIndex("Image", index) + " 'caption' must be a string if provided")
  {
    if !Truthy(item) || TypeOf(item) != "object" then
      Reject(AtIndex("Image", index) + " must be an object")
    else if TypeOf(Prop(item, "src")) != "string" then
      Reject(AtIndex("Image", index) + " must have a 'src' property of type string")
    else if TypeOf(Prop(item, "alt")) != "string" then
      Reject(AtIndex("Image", index) + " must have an 'alt' property of type string")
    else
      var caption := Prop(item, "caption");
      if !caption.Undefined? && TypeOf(caption) != "string" then
        Reject(AtIndex("Image", index) + " 'caption' must be a string if provided")
      else
        Accept(ImageItem(Prop(item, "src").s, Prop(item, "alt").s, if caption.Undefined? then None else Some(caption.s)))
  }

  // ---------------------------------------------------------------------
  // The four validators
  // ---------------------------------------------------------------------

  /** `validateChartData`. */
  method ValidateChartData(data: Js) returns (r: ValidationResult<ChartData>)
    ensures r == Outcome(data, "Chart", CheckChartItem)
  {
    r := ValidatePayload(data, "Chart", CheckChartItem);
  }

  /** `validateMetricData`. */
  method ValidateMetricData(data: Js) returns (r: ValidationResult<MetricData>)
    ensures r == Outcome(data, "Metric", CheckMetricItem)
  {
    r := ValidatePayload(data, "Metric", CheckMetricItem);
  }

  /** `validateTimelineData`. */
  method ValidateTimelineData(data: Js) returns (r: ValidationResult<TimelineItem>)
    ensures r == Outcome(data, "Timeline", CheckTimelineItem)
  {
    r := ValidatePayload(data, "Timeline", CheckTimelineItem);
  }

  /** `validateImageData`. */
  method ValidateImageData(data: Js) returns (r: ValidationResult<ImageItem>)
    ensures r == Outcome(data, "Image", CheckImageItem)
  {
    r := ValidatePayload(data, "Image", CheckImageItem);
  }

  /** A series with one bad value: one error naming index 1's `value`, and the good item still returned as `data`. */
  lemma ChartScenario()
    ensures var good := Obj(map["name" := Str("Q1"), "value" := Num(Finite(10.0))]);
      var bad := Obj(map["name" := Str("Q2"), "value" := Str("bad")]);
      Outcome(Arr([good, bad]), "Chart", CheckChartItem)
        == ValidationResult(false, Some([ChartData("Q1", Finite(10.0))]), [AtIndex("Item", 1) + " must have a 'value' property of type number"])
  {
    var good := Obj(map["name" := Str("Q1"), "value" := Num(Finite(10.0))]);
    var bad := Obj(map["name" := Str("Q2"), "value" := Str("bad")]);
    var message := AtIndex("Item", 1) + " must have a 'value' property of type number";
    var items := [good, bad];
    ScenarioItems(good, bad);
    assert items[..1] == [good] && [good][..0] == [];
    assert Accepted([good], CheckChartItem) == [ChartData("Q1", Finite(10.0))];
    assert Rejected([good], CheckChartItem) == [];
    assert Accepted(items, CheckChartItem) == [ChartData("Q1", Finite(10.0))];
    assert Rejected(items, CheckChartItem) == [message];
  }

  /** The two points of `ChartScenario`: the first is accepted, the second fails on its value. */
  lemma ScenarioItems(good: Js, bad: Js)
    requires good == Obj(map["name" := Str("Q1"), "value" := Num(Finite(10.0))])
    requires bad == Obj(map["name" := Str("Q2"), "value" := Str("bad")])
    ensures CheckChartItem(good, 0) == Accept(ChartData("Q1", Finite(10.0)))
    ensures CheckChartItem(bad, 1) == Reject(AtIndex("Item", 1) + " must have a 'value' property of type number")
  {
    assert "name"[0] != "value"[0];
    assert Prop(good, "name") == Str("Q1") && Prop(good, "value") == Num(Finite(10.0));
    assert Prop(bad, "name") == Str("Q2") && Prop(bad, "value") == Str("bad");
    assert "string"[0] != "number"[0];
  }

  /** A timeline entry with an unknown status is rejected with the message listing the three statuses. */
  lemma TimelineScenario()
    ensures var entry := Obj(map["title" := Str("Launch"), "status" := Str("shipped")]);
      Outcome(Arr([entry]), "Timeline", CheckTimelineItem)
        == ValidationResult(false, Some([]), [AtIndex("Timeline item", 0) + " 'status' must be one of: completed, current, upcoming"])
  {
    var entry := Obj(map["title" := Str("Launch"), "status" := Str("shipped")]);
    var message := AtIndex("Timeline item", 0) + " 'status' must be one of: completed, current, upcoming";
    UnknownStatusRejected(entry);
    assert [entry][..0] == [];
    assert Accepted([entry], CheckTimelineItem) == [];
    assert Rejected([entry], CheckTimelineItem) == [message];
  }

  /** The entry of `TimelineScenario` fails only its status check. */
  lemma UnknownStatusRejected(entry: Js)
    requires entry == Obj(map["title" := Str("Launch"), "status" := Str("shipped")])
    ensures CheckTimelineItem(entry, 0) == Reject(AtIndex("Timeline item", 0) + " 'status' must be one of: completed, current, upcoming")
  {
    assert |"description"| != |"title"| && |"description"| != |"status"|;
    assert |"date"| != |"title"| && |"date"| != |"status"|;
    assert Truthy(entry) && TypeOf(entry) == "object";
    assert Prop(entry, "title") == Str("Launch") && TypeOf(Prop(entry, "title")) == "string";
    assert Prop(entry, "description") == Undefined && Prop(entry, "date") == Undefined;
    assert Prop(entry, "status") == Str("shipped");
    assert "shipped"[0] != "completed"[0] && "shipped"[0] != "current"[0] && "shipped"[0] != "upcoming"[0];
    assert StatusOf(Str("shipped")).None?;
  }

  // ---------------------------------------------------------------------
  // Re-validation of sanitised data
  // ---------------------------------------------------------------------

  /** A sanitised array handed back to a validator as a JavaScript array of plain objects. */
  function ToJsArray<T>(ds: seq<T>, toJs: T -> Js): (v: Js)
    ensures v.Arr? && |v.elems| == |ds|
  {
    Arr(seq(|ds|, i requires 0 <= i < |ds| => toJs(ds[i])))
  }

  function ChartToJs(d: ChartData): Js {
    Obj(map["name" := Str(d.name), "value" := Num(d.value)])
  }

  /** Optional fields are set only when present, as the validator sets them. */
  function MetricToJs(m: MetricData): Js {
    var base := map["label" := Str(m.labelText), "value" := Num(m.value)];
    var withUnit := if m.unit.Some? then base["unit" := Str(m.unit.value)] else base;
    Obj(if m.change.Some? then withUnit["change" := Num(m.change.value)] else withUnit)
  }

  function TimelineToJs(t: TimelineItem): Js {
    var base := map["title" := Str(t.title)];
    var withDescription := if t.description.Some? then base["description" := Str(t.description.value)] else base;
    var withDate := if t.date.Some? then withDescription["date" := Str(t.date.value)] else withDescription;
    Obj(if t.status.Some? then withDate["status" := Str(StatusName(t.status.value))] else withDate)
  }

  /** The image record always carries `caption`, `undefined` when absent. */
  function ImageToJs(im: ImageItem): Js {
    Obj(map["src" := Str(im.src), "alt" := Str(im.alt), "caption" := if im.caption.Some? then Str(im.caption.value) else Undefined])
  }

  /** The numbers of a chart record are finite. */
  predicate ChartWellFormed(d: ChartData) {
    d.value.Finite?
  }

  /** The numbers of a metric record are finite. */
  predicate MetricWellFormed(m: MetricData) {
    m.value.Finite? && (m.change.Some? ==> m.change.value.Finite?)
  }

  /** Every non-empty array of well-formed chart records passes validation unchanged. */
  lemma ChartRoundTrip(ds: seq<ChartData>)
    requires ds != [] && forall k :: 0 <= k < |ds| ==> ChartWellFormed(ds[k])
    ensures Outcome(ToJsArray(ds, ChartToJs), "Chart", CheckChartItem) == ValidationResult(true, Some(ds), [])
  {
    var items := ToJsArray(ds, ChartToJs).elems;
    forall i | 0 <= i < |items| ensures CheckChartItem(items[i], i) == Accept(ds[i]) {
      assert items[i] == ChartToJs(ds[i]);
    }
    AcceptEvery(items, CheckChartItem, ds);
  }

  /** One well-formed metric record, written as an object, is accepted as itself. */
  lemma MetricItemRoundTrip(m: MetricData, index: nat)
    requires MetricWellFormed(m)
    ensures CheckMetricItem(MetricToJs(m), index) == Accept(m)
  {
    var item := MetricToJs(m);
    assert "label"[0] != "value"[0] && |"unit"| != |"label"| && |"change"| != |"label"| && |"change"| != |"unit"|;
    assert Prop(item, "label") == Str(m.labelText) && Prop(item, "value") == Num(m.value);
    assert CopiedString(Prop(item, "unit"), m.unit) && CopiedNumber(Prop(item, "change"), m.change);
  }

  /** A status name is recognised as that status. */
  lemma StatusNameRoundTrip(st: TimelineStatus)
    ensures StatusOf(Str(StatusName(st))) == Some(st)
  {
    assert "completed"[1] != "current"[1] && "current"[0] != "upcoming"[0] && "completed"[0] != "upcoming"[0];
  }

  /** One timeline record, written as an object, is accepted as itself. */
  lemma TimelineItemRoundTrip(t: TimelineItem, index: nat)
    ensures CheckTimelineItem(TimelineToJs(t), index) == Accept(t)
  {
    var item := TimelineToJs(t);
    assert |"title"| != |"description"| && |"title"| != |"date"| && |"title"| != |"status"|;
    assert |"description"| != |"date"| && |"description"| != |"status"| && |"date"| != |"status"|;
    assert Prop(item, "title") == Str(t.title);
    assert CopiedString(Prop(item, "description"), t.description) && CopiedString(Prop(item, "date"), t.date);
    if t.status.Some? {
      StatusNameRoundTrip(t.status.value);
      assert Prop(item, "status") == Str(StatusName(t.status.value));
    } else {
      assert Prop(item, "status") == Undefined;
    }
  }

  /** Every non-empty array of well-formed metric records passes validation unchanged. */
  lemma MetricRoundTrip(ms: seq<MetricData>)
    requires ms != [] && forall k :: 0 <= k < |ms| ==> MetricWellFormed(ms[k])
    ensures Outcome(ToJsArray(ms, MetricToJs), "Metric", CheckMetricItem) == ValidationResult(true, Some(ms), [])
  {
    var items := ToJsArray(ms, MetricToJs).elems;
    forall i | 0 <= i < |items| ensures CheckMetricItem(items[i], i) == Accept(ms[i]) {
      assert items[i] == MetricToJs(ms[i]);
      MetricItemRoundTrip(ms[i], i);
    }
    AcceptEvery(items, CheckMetricItem, ms);
  }

  /** Every non-empty array of timeline records passes validation unchanged. */
  lemma TimelineRoundTrip(ts: seq<TimelineItem>)
    requires ts != []
    ensures Outcome(ToJsArray(ts, TimelineToJs), "Timeline", CheckTimelineItem) == ValidationResult(true, Some(ts), [])
  {
    var items := ToJsArray(ts, TimelineToJs).elems;
    forall i | 0 <= i < |items| ensures CheckTimelineItem(items[i], i) == Accept(ts[i]) {
      assert items[i] == TimelineToJs(ts[i]);
      TimelineItemRoundTrip(ts[i], i);
    }
    AcceptEvery(items, CheckTimelineItem, ts);
  }

  /** One image record, written as an object, is accepted as itself. */
  lemma ImageItemRoundTrip(im: ImageItem, index: nat)
    ensures CheckImageItem(ImageToJs(im), index) == Accept(im)
  {
    var item := ImageToJs(im);
    assert "src"[0] != "alt"[0] && |"caption"| != |"src"|;
    assert Prop(item, "src") == Str(im.src) && Prop(item, "alt") == Str(im.alt);
    assert Prop(item, "caption") == if im.caption.Some? then Str(im.caption.value) else Undefined;
  }

  /** Every non-empty array of image records passes validation unchanged. */
  lemma ImageRoundTrip(ims: seq<ImageItem>)
    requires ims != []
    ensures Outcome(ToJsArray(ims, ImageToJs), "Image", CheckImageItem) == ValidationResult(true, Some(ims), [])
  {
    var items := ToJsArray(ims, ImageToJs).elems;
    forall i | 0 <= i < |items| ensures CheckImageItem(items[i], i) == Accept(ims[i]) {
      assert items[i] == ImageToJs(ims[i]);
      ImageItemRoundTrip(ims[i], i);
    }
    AcceptEvery(items, CheckImageItem, ims);
  }

  /** A valid chart result holds a non-empty array of well-formed records. */
  lemma ValidChartWellFormed(data: Js)
    ensures var r := Outcome(data, "Chart", CheckChartItem);
      r.valid ==> r.data.Some? && r.data.value != [] && forall k :: 0 <= k < |r.data.value| ==> ChartWellFormed(r.data.value[k])
  {
    ValidMeansAllAccepted(data, "Chart", CheckChartItem);
    if data.Arr? {
      AcceptedSatisfy(data.elems, CheckChartItem, ChartWellFormed);
    }
  }

  /** A valid metric result holds a non-empty array of well-formed records. */
  lemma ValidMetricWellFormed(data: Js)
    ensures var r := Outcome(data, "Metric", CheckMetricItem);
      r.valid ==> r.data.Some? && r.data.value != [] && forall k :: 0 <= k < |r.data.value| ==> MetricWellFormed(r.data.value[k])
  {
    ValidMeansAllAccepted(data, "Metric", CheckMetricItem);
    if data.Arr? {
      AcceptedSatisfy(data.elems, CheckMetricItem, MetricWellFormed);
    }
  }

  /** Re-validating the data of a valid chart result gives the same result. */
  lemma ChartIdempotent(data: Js)
    requires Outcome(data, "Chart", CheckChartItem).valid
    ensures var r := Outcome(data, "Chart", CheckChartItem);
      Outcome(ToJsArray(r.data.value, ChartToJs), "Chart", CheckChartItem) == r
  {
    ValidChartWellFormed(data);
    ChartRoundTrip(Outcome(data, "Chart", CheckChartItem).data.value);
  }

  /** Re-validating the data of a valid metric result gives the same result. */
  lemma MetricIdempotent(data: Js)
    requires Outcome(data, "Metric", CheckMetricItem).valid
    ensures var r := Outcome(data, "Metric", CheckMetricItem);
      Outcome(ToJsArray(r.data.value, MetricToJs), "Metric", CheckMetricItem) == r
  {
    ValidMetricWellFormed(data);
    MetricRoundTrip(Outcome(data, "Metric", CheckMetricItem).data.value);
  }

  /** Re-validating the data of a valid timeline result gives the same result. */
  lemma TimelineIdempotent(data: Js)
    requires Outcome(data, "Timeline", CheckTimelineItem).valid
    ensures var r := Outcome(data, "Timeline", CheckTimelineItem);
      Outcome(ToJsArray(r.data.value, TimelineToJs), "Timeline", CheckTimelineItem) == r
  {
    ValidMeansAllAccepted(data, "Timeline", CheckTimelineItem);
    TimelineRoundTrip(Outcome(data, "Timeline", CheckTimelineItem).data.value);
  }

  /** Re-validating the data of a valid image result gives the same result. */
  lemma ImageIdempotent(data: Js)
    requires Outcome(data, "Image", CheckImageItem).valid
    ensures var r := Outcome(data, "Image", CheckImageItem);
      Outcome(ToJsArray(r.data.value, ImageToJs), "Image", CheckImageItem) == r
  {
    ValidMeansAllAccepted(data, "Image", CheckImageItem);
    ImageRoundTrip(Outcome(data, "Image", CheckImageItem).data.value);
  }

  // ---------------------------------------------------------------------
  // Fallback tables
  // ---------------------------------------------------------------------

  /** The chart families with a fallback of their own. */
  const ChartFallbacks: map<string, seq<ChartData>> := map[
    "bar" := [ChartData("Data", Finite(0.0))],
    "line" := [ChartData("Start", Finite(0.0)), ChartData("End", Finite(0.0))],
    "pie" := [ChartData("No Data", Finite(100.0))],
    "area" := [ChartData("Start", Finite(0.0)), ChartData("End", Finite(0.0))],
    "scatter" := [ChartData("Point", Finite(0.0))]
  ]

  /** `createChartFallback`: the family's fallback, the bar fallback for any other name. */
  function CreateChartFallback(chartType: string): (r: seq<ChartData>)
    ensures r != [] && forall k :: 0 <= k < |r| ==> ChartWellFormed(r[k])
    ensures chartType !in ChartFallbacks ==> r == [ChartData("Data", Finite(0.0))]
  {
    if chartType in ChartFallbacks then ChartFallbacks[chartType] else ChartFallbacks["bar"]
  }

  /** The continuous families get two zero points, the part-of-whole family one full-weight item. */
  lemma ChartFallbackFamilies()
    ensures CreateChartFallback("line") == CreateChartFallback("area") == [ChartData("Start", Finite(0.0)), ChartData("End", Finite(0.0))]
    ensures CreateChartFallback("pie") == [ChartData("No Data", Finite(100.0))]
    ensures CreateChartFallback("bar") == [ChartData("Data", Finite(0.0))]
    ensures CreateChartFallback("scatter") == [ChartData("Point", Finite(0.0))]
  {
  }

  /** Every chart fallback passes the chart validator unchanged. */
  lemma ChartFallbackValid(chartType: string)
    ensures Outcome(ToJsArray(CreateChartFallback(chartType), ChartToJs), "Chart", CheckChartItem)
      == ValidationResult(true, Some(CreateChartFallback(chartType)), [])
  {
    ChartRoundTrip(CreateChartFallback(chartType));
  }

  /** `createMetricsFallback`. */
  function CreateMetricsFallback(): (r: seq<MetricData>)
    ensures r != [] && forall k :: 0 <= k < |r| ==> MetricWellFormed(r[k])
  {
    [MetricData("Data Unavailable", Finite(0.0), Some(""), Some(Finite(0.0)))]
  }

  /** The metrics fallback passes the metric validator unchanged. */
  lemma MetricsFallbackValid()
    ensures Outcome(ToJsArray(CreateMetricsFallback(), MetricToJs), "Metric", CheckMetricItem)
      == ValidationResult(true, Some(CreateMetricsFallback()), [])
  {
    MetricRoundTrip(CreateMetricsFallback());
  }

  // ---------------------------------------------------------------------
  // Enum normalisers
  // ---------------------------------------------------------------------

  const Layouts: seq<string> := ["full-width", "centered", "sidebar", "text-chart", "grid"]
  const Emphases: seq<string> := ["highlight", "callout", "success", "warning", "subtle"]
  const ChartTypes: seq<string> := ["bar", "line", "pie", "area", "scatter"]
  const ColorSchemes: seq<string> := ["primary", "success", "warning", "error"]

  /** `allowed.includes(v) ? v : fallback`: only a string equal to a member is a member. */
  function Normalize(v: Js, allowed: seq<string>, fallback: string): (r: string)
    requires fallback in allowed
    ensures r in allowed
  {
    if v.Str? && v.s in allowed then v.s else fallback
  }

  /** Members are kept, everything else becomes the default, and normalising twice changes nothing. */
  lemma NormalizeLaws(v: Js, allowed: seq<string>, fallback: string)
    requires fallback in allowed
    ensures v.Str? && v.s in allowed ==> Normalize(v, allowed, fallback) == v.s
    ensures !(v.Str? && v.s in allowed) ==> Normalize(v, allowed, fallback) == fallback
    ensures Normalize(Str(Normalize(v, allowed, fallback)), allowed, fallback) == Normalize(v, allowed, fallback)
  {
  }

  /** `validateLayout`. */
  function ValidateLayout(layout: Js): (r: string)
    ensures r in Layouts
  {
    Normalize(layout, Layouts, "centered")
  }

  /** `validateEmphasis`. */
  function ValidateEmphasis(emphasis: Js): (r: string)
    ensures r in Emphases
  {
    Normalize(emphasis, Emphases, "callout")
  }

  /** `validateChartType`. */
  function ValidateChartType(chartType: Js): (r: string)
    ensures r in ChartTypes && r in ChartFallbacks
  {
    Normalize(chartType, ChartTypes, "bar")
  }

  /** `validateColorScheme`. */
  function ValidateColorScheme(scheme: Js): (r: string)
    ensures r in ColorSchemes
  {
    Normalize(scheme, ColorSchemes, "primary")
  }

  // ---------------------------------------------------------------------
  // Fail-closed selection at the rendering callers
  // ---------------------------------------------------------------------

  /** The chart section renders validated data when valid and the family's fallback otherwise: never empty, never ill-typed. */
  function ChartDataToRender(data: Js, chartType: Js): (r: seq<ChartData>)
    ensures r != [] && forall k :: 0 <= k < |r| ==> ChartWellFormed(r[k])
    ensures Outcome(data, "Chart", CheckChartItem).valid ==> Outcome(data, "Chart", CheckChartItem).data == Some(r)
  {
    var result := Outcome(data, "Chart", CheckChartItem);
    ValidChartWellFormed(data);
    if result.valid then result.data.value else CreateChartFallback(ValidateChartType(chartType))
  }

  /** The metric grid renders validated metrics when valid and the metrics fallback otherwise. */
  function MetricsToRender(metrics: Js): (r: seq<MetricData>)
    ensures r != [] && forall k :: 0 <= k < |r| ==> MetricWellFormed(r[k])
    ensures Outcome(metrics, "Metric", CheckMetricItem).valid ==> Outcome(metrics, "Metric", CheckMetricItem).data == Some(r)
  {
    var result := Outcome(metrics, "Metric", CheckMetricItem);
    ValidMetricWellFormed(metrics);
    if result.valid then result.data.value else CreateMetricsFallback()
  }
}
