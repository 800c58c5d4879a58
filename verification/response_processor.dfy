/** The board-content normaliser of `lib/aitutor/responseProcessor.ts`: it accepts a reply as text
    (parsed with `JSON.parse`, an oracle here) or as an already parsed value, unwraps each section
    that arrives wrapped in an object, and turns every failure into a fixed error board. */
module ResponseProcessor {
  import opened Base
  import opened Json

  /** The board's four sections; `visual` may be `undefined` (`None`). */
  datatype Content = Content(steps: Json, visual: Option<Json>, practice: Json, concepts: Json)

  datatype Processed = Success(content: Content) | Failure(error: string, content: Content)

  const FAILED := "Failed to process AI response"

  /** The board shown when anything goes wrong. */
  const ERROR_CONTENT := Content(JStr("Error processing response"), None,
                                 JStr("No practice problems available"), JStr("No concepts available"))

  /** The value the function works on: a string argument is parsed (`None` when that throws),
      anything else is used as it is (`None` is `undefined`). */
  function Data(response: Option<Json>, parse: string -> Option<Json>): (r: Option<Json>)
    ensures response.Some? && response.value.JStr? ==> r == parse(response.value.s)
    ensures !(response.Some? && response.value.JStr?) ==> r == response
  {
    if response.Some? && response.value.JStr? then parse(response.value.s) else response
  }

  /** One text section, read from the destructured property `v` (which defaults to the empty text
      when `undefined`): a string stays as it is; anything else is replaced by its `inner`
      property, or the empty text when that is falsy. Reading a property of `null` throws. */
  function Section(v: Option<Json>, inner: string): (r: Result<Json>)
    ensures r.Err? <==> v == Some(JNull)
    ensures v.None? ==> r == Ok(JStr(""))
    ensures v.Some? && v.value.JStr? ==> r == Ok(v.value)
    ensures r.Ok? && v.Some? && !v.value.JStr? ==>
              if Present(Prop(v.value, inner)) then r.value == Prop(v.value, inner).value else r.value == JStr("")
  {
    if v.None? then Ok(JStr(""))
    else if v.value.JStr? then Ok(v.value)
    else if v.value.JNull? then Err(TYPE_ERROR)
    else Ok(Fallback(Prop(v.value, inner), JStr("")))
  }

  /** `visual?.Visual || visual`. */
  function VisualSection(v: Option<Json>): (r: Option<Json>)
    ensures Present(OptGet(v, "Visual")) ==> r == OptGet(v, "Visual")
    ensures !Present(OptGet(v, "Visual")) ==> r == v
  {
    if Present(OptGet(v, "Visual")) then OptGet(v, "Visual") else v
  }

  /** Destructuring `null` or `undefined` throws; any other value destructures, with missing
      properties `undefined`. */
  predicate Destructurable(data: Option<Json>) {
    data.Some? && !data.value.JNull?
  }

  /** `processAIResponse`. */
  function Process(response: Option<Json>, parse: string -> Option<Json>): (r: Processed)
    ensures r.Failure? <==>
      || !Destructurable(Data(response, parse))
      || Prop(Data(response, parse).value, "steps") == Some(JNull)
      || Prop(Data(response, parse).value, "practice") == Some(JNull)
      || Prop(Data(response, parse).value, "concepts") == Some(JNull)
    ensures r.Failure? ==> r.error == FAILED && r.content == ERROR_CONTENT
    ensures r.Success? ==>
      var d := Data(response, parse).value;
      && r.content.steps == Section(Prop(d, "steps"), "steps").value
      && r.content.visual == VisualSection(Prop(d, "visual"))
      && r.content.practice == Section(Prop(d, "practice"), "Practice").value
      && r.content.concepts == Section(Prop(d, "concepts"), "Concepts").value
  {
    var data := Data(response, parse);
    if !Destructurable(data) then Failure(FAILED, ERROR_CONTENT)
    else
      var steps := Section(Prop(data.value, "steps"), "steps");
      var practice := Section(Prop(data.value, "practice"), "Practice");
      var concepts := Section(Prop(data.value, "concepts"), "Concepts");
      if steps.Err? || practice.Err? || concepts.Err? then Failure(FAILED, ERROR_CONTENT)
      else Success(Content(steps.value, VisualSection(Prop(data.value, "visual")), practice.value, concepts.value))
  }

  /** The wire form of a board whose sections are texts. */
  function Wire(steps: string, visual: Option<Json>, practice: string, concepts: string): map<string, Json> {
    var m := map["steps" := JStr(steps), "practice" := JStr(practice), "concepts" := JStr(concepts)];
    if visual.Some? then m["visual" := visual.value] else m
  }

  /** A board sent as an object of text sections comes back as the same board (a plot without a
      truthy `Visual` wrapper is kept as it is). */
  lemma TextSectionsRoundTrip(steps: string, visual: Option<Json>, practice: string, concepts: string)
    requires !Present(OptGet(visual, "Visual"))
    ensures Process(Some(JObj(Wire(steps, visual, practice, concepts))), _ => None)
            == Success(Content(JStr(steps), visual, JStr(practice), JStr(concepts)))
  {
    var m := Wire(steps, visual, practice, concepts);
    assert Prop(JObj(m), "visual") == visual;
  }

  /** Sections that arrive wrapped one level deep, as `{ steps: { steps } }`,
      `{ practice: { Practice } }` and `{ concepts: { Concepts } }`, are unwrapped. */
  lemma WrappedSectionsUnwrapped(steps: string, practice: string, concepts: string)
    ensures
      var d := JObj(map["steps" := JObj(map["steps" := JStr(steps)]),
                        "practice" := JObj(map["Practice" := JStr(practice)]),
                        "concepts" := JObj(map["Concepts" := JStr(concepts)])]);
      var r := Process(Some(d), _ => None);
      && r.Success?
      && r.content.steps == JStr(steps)
      && r.content.practice == JStr(practice)
      && r.content.concepts == JStr(concepts)
      && r.content.visual.None?
  {
  }

  /** A text that does not parse gives the error board. */
  lemma UnparseableTextFails(s: string, parse: string -> Option<Json>)
    requires parse(s).None?
    ensures Process(Some(JStr(s)), parse) == Failure(FAILED, ERROR_CONTENT)
  {
  }
}
