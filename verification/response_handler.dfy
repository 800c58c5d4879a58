/** The reply formatter of `lib/response-handler.ts`: the JSON extraction, the four section
    formatters and `processAIResponse`, which turn the tutor's reply into whiteboard content.
    `JSON.parse` is an oracle from text to a value (`None` when it throws). The formatters read the
    parsed value with JavaScript's property semantics, so a reply of an unexpected shape can make
    them throw a TypeError; that is an `Err` here. */
module ResponseHandler {
  import opened Base
  import opened Text
  import opened Json

  /** `JSON.parse`: the value, or `None` when the text is not JSON. */
  type Parser = string -> Option<Json>

  /** `extractJsonFromResponse`: the first fenced `json` block when there is one, the whole reply
      otherwise. A parse failure is its `null`, which the formatters treat like a missing value. */
  function Extract(text: string, parse: Parser): (r: Option<Json>)
    ensures FencedBody(text).Some? ==> r == parse(FencedBody(text).value)
    ensures FencedBody(text).None? ==> r == parse(text)
  {
    parse(JsonSource(text))
  }

  // ---------------------------------------------------------------------------------------------
  // Steps

  const NO_STEPS := "No steps available"

  /** `formatSteps`: the trimmed `steps` text, the placeholder when it is falsy or missing; `trim`
      is a string method, so any other truthy value throws. */
  function FormatSteps(data: Option<Json>): (r: Result<string>)
    ensures !Present(OptGet(data, "steps")) ==> r == Ok(NO_STEPS)
    ensures Present(OptGet(data, "steps")) ==> (r.Ok? <==> OptGet(data, "steps").value.JStr?)
    ensures r.Ok? && Present(OptGet(data, "steps")) ==> r.value == Trim(OptGet(data, "steps").value.s)
    // what the board shows never starts or ends with white space
    ensures r.Ok? && r.value != [] ==> !IsJsSpace(r.value[0]) && !IsJsSpace(r.value[|r.value| - 1])
  {
    var steps := OptGet(data, "steps");
    if !Present(steps) then Ok(NO_STEPS)
    else if steps.value.JStr? then Ok(Trim(steps.value.s))
    else Err(TYPE_ERROR)
  }

  // ---------------------------------------------------------------------------------------------
  // Visual

  /** The fallback plot: the function `x` on the domain [-10, 10]. */
  const DEFAULT_VISUAL: Json :=
    JObj(map["type" := JStr("function"),
             "data" := JObj(map["function" := JStr("x"), "domain" := JArr([JNum(-10), JNum(10)])])])

  /** The rewriting of a plotted expression into JavaScript: `sin`, `cos`, `tan` and `abs` in any
      letter case become the `Math` functions, `^` becomes `**`, and `pi` in any case becomes
      `Math.PI`, in that order. */
  function JsFunction(f: string): string {
    var a := ReplaceAll(f, "sin", "Math.sin", true);
    var b := ReplaceAll(a, "cos", "Math.cos", true);
    var c := ReplaceAll(b, "tan", "Math.tan", true);
    var d := ReplaceAll(c, "abs", "Math.abs", true);
    var e := ReplaceAll(d, "^", "**", false);
    ReplaceAll(e, "pi", "Math.PI", true)
  }

  /** The rewritten expression has no `^` left: every power is JavaScript's `**`. */
  lemma NoCaretRemains(f: string)
    ensures '^' !in JsFunction(f)
  {
    var a := ReplaceAll(f, "sin", "Math.sin", true);
    var b := ReplaceAll(a, "cos", "Math.cos", true);
    var c := ReplaceAll(b, "tan", "Math.tan", true);
    var d := ReplaceAll(c, "abs", "Math.abs", true);
    ReplaceAllRemoves(d, '^', "**");
    ReplaceAllAvoids(ReplaceAll(d, "^", "**", false), "pi", "Math.PI", true, '^');
  }

  /** No pattern of the rewriting occurs anywhere in `f`. */
  predicate NothingToRewrite(f: string) {
    forall i :: 0 <= i < |f| ==>
      && !MatchesAt(f[i..], "sin", true) && !MatchesAt(f[i..], "cos", true)
      && !MatchesAt(f[i..], "tan", true) && !MatchesAt(f[i..], "abs", true)
      && !MatchesAt(f[i..], "^", false) && !MatchesAt(f[i..], "pi", true)
  }

  /** An expression with nothing to rewrite is plotted as written. */
  lemma PlainExpressionKept(f: string)
    requires NothingToRewrite(f)
    ensures JsFunction(f) == f
  {
    ReplaceAllNoMatch(f, "sin", "Math.sin", true);
    ReplaceAllNoMatch(f, "cos", "Math.cos", true);
    ReplaceAllNoMatch(f, "tan", "Math.tan", true);
    ReplaceAllNoMatch(f, "abs", "Math.abs", true);
    ReplaceAllNoMatch(f, "^", "**", false);
    ReplaceAllNoMatch(f, "pi", "Math.PI", true);
  }

  /** `data?.visual?.type && data?.visual?.data`: the condition for using the reply's plot. */
  predicate HasPlot(data: Option<Json>) {
    Present(OptGet(OptGet(data, "visual"), "type")) && Present(OptGet(OptGet(data, "visual"), "data"))
  }

  /** The own fields of an object, which is what the spreads `{...v}` copy here. */
  function Fields(v: Json): map<string, Json> {
    if v.JObj? then v.fields else map[]
  }

  /** `formatVisual`: the reply's plot with its expression rewritten and every other field kept,
      or the fallback plot when the reply has no plot type or data. The expression must be a
      string (`replace` is a string method). */
  function FormatVisual(data: Option<Json>): (r: Result<Json>)
    ensures !HasPlot(data) ==> r == Ok(DEFAULT_VISUAL)
    ensures HasPlot(data) ==>
      var visual := OptGet(data, "visual").value;
      var plot := OptGet(OptGet(data, "visual"), "data").value;
      && (r.Ok? <==> Prop(plot, "function").Some? && Prop(plot, "function").value.JStr?)
      // only objects get that far, so the spreads copy real fields
      && (r.Ok? ==> visual.JObj? && plot.JObj? && r.value.JObj?)
      && (r.Ok? ==> r.value.fields.Keys == visual.fields.Keys + {"data"})
      && (r.Ok? ==> forall k :: k in visual.fields && k != "data" ==> r.value.fields[k] == visual.fields[k])
      && (r.Ok? ==> r.value.fields["data"]
                      == JObj(plot.fields["function" := JStr(JsFunction(plot.fields["function"].s))]))
  {
    if !HasPlot(data) then Ok(DEFAULT_VISUAL)
    else
      var visual := OptGet(data, "visual").value;
      var plot := OptGet(OptGet(data, "visual"), "data").value;
      var f := Prop(plot, "function");
      if f.None? || !f.value.JStr? then Err(TYPE_ERROR)
      else Ok(JObj(Fields(visual)["data" := JObj(Fields(plot)["function" := JStr(JsFunction(f.value.s))])]))
  }

  /** Whatever the reply, a plot that reaches the board has a string expression without `^`. */
  lemma PlottedExpressionIsJavaScript(data: Option<Json>)
    requires FormatVisual(data).Ok?
    ensures FormatVisual(data).value.JObj? && "data" in FormatVisual(data).value.fields
    ensures var plot := FormatVisual(data).value.fields["data"];
            plot.JObj? && "function" in plot.fields && plot.fields["function"].JStr?
            && '^' !in plot.fields["function"].s
  {
    if HasPlot(data) {
      var plot := OptGet(OptGet(data, "visual"), "data").value;
      NoCaretRemains(plot.fields["function"].s);
    }
  }

  // ---------------------------------------------------------------------------------------------
  // Practice problems

  /** A problem with a truthy question and solution; the others are dropped. */
  predicate Complete(p: Json) {
    !p.JNull? && Present(Prop(p, "question")) && Present(Prop(p, "solution"))
  }

  /** One problem's text: its question, its difficulty when truthy, and its solution, one per line;
      the empty text for an incomplete problem. Reading a property of `null` throws. */
  function ProblemText(p: Json): (r: Result<string>)
    ensures r.Err? <==> p.JNull?
    ensures r.Ok? ==> (r.value != "" <==> Complete(p))
    ensures r.Ok? && Complete(p) ==>
      && StartsWith(r.value, "Question: " + ToText(Prop(p, "question").value))
      && EndsWith(r.value, "\nSolution: " + ToText(Prop(p, "solution").value))
  {
    if p.JNull? then Err(TYPE_ERROR)
    else if !Complete(p) then Ok("")
    else
      var question := "Question: " + ToText(Prop(p, "question").value);
      var difficulty := Prop(p, "difficulty");
      var middle := if Present(difficulty) then "\nDifficulty: " + ToText(difficulty.value) else "";
      var solution := "\nSolution: " + ToText(Prop(p, "solution").value);
      assert (question + middle + solution)[..|question|] == question;
      assert (question + middle + solution)[|question + middle|..] == solution;
      Ok(question + middle + solution)
  }

  /** `problems.map(...).filter(Boolean)`: the texts of the complete problems, in order. */
  function ProblemTexts(ps: seq<Json>): (r: Result<seq<string>>)
    ensures r.Err? <==> exists i :: 0 <= i < |ps| && ps[i].JNull?
    ensures r.Ok? ==> forall i :: 0 <= i < |r.value| ==> r.value[i] != ""
    ensures r.Ok? ==> forall i :: 0 <= i < |ps| && Complete(ps[i]) ==> ProblemText(ps[i]).value in r.value
    ensures r.Ok? ==> (r.value == [] <==> forall i :: 0 <= i < |ps| ==> !Complete(ps[i]))
    ensures r.Ok? ==> |r.value| <= |ps|
    decreases |ps|
  {
    if ps == [] then Ok([])
    else
      var head := ProblemText(ps[0]);
      var rest := ProblemTexts(ps[1..]);
      assert forall i :: 1 <= i < |ps| ==> ps[i] == ps[1..][i - 1];
      if head.Err? then Err(TYPE_ERROR)
      else if rest.Err? then Err(TYPE_ERROR)
      else if head.value == "" then rest
      else Ok([head.value] + rest.value)
  }

  /** `formatPractice`: the complete problems separated by blank lines; the empty text when the
      reply has no problems. A truthy `length` on anything but an array throws (no `map`). */
  function FormatPractice(data: Option<Json>): (r: Result<string>)
    ensures !Present(OptGet(OptGet(OptGet(data, "practice"), "problems"), "length")) ==> r == Ok("")
    ensures Present(OptGet(OptGet(OptGet(data, "practice"), "problems"), "length")) ==>
      var problems := OptGet(OptGet(data, "practice"), "problems").value;
      && (r.Err? <==> !problems.JArr? || exists i :: 0 <= i < |problems.items| && problems.items[i].JNull?)
      && (r.Ok? ==> (r.value == "" <==> forall i :: 0 <= i < |problems.items| ==> !Complete(problems.items[i])))
  {
    var problems := OptGet(OptGet(data, "practice"), "problems");
    if !Present(OptGet(problems, "length")) then Ok("")
    else if !problems.value.JArr? then Err(TYPE_ERROR)
    else
      match ProblemTexts(problems.value.items)
      case Err(e) => Err(e)
      case Ok(texts) =>
        JoinStartsWithFirst(texts, "\n\n");
        Ok(Join(texts, "\n\n"))
  }

  /** Every complete problem's question shows in the practice text. */
  lemma CompleteProblemListed(data: Option<Json>, i: nat)
    requires FormatPractice(data).Ok?
    requires Present(OptGet(OptGet(OptGet(data, "practice"), "problems"), "length"))
    requires var problems := OptGet(OptGet(data, "practice"), "problems").value;
             problems.JArr? && i < |problems.items| && Complete(problems.items[i])
    ensures var p := OptGet(OptGet(data, "practice"), "problems").value.items[i];
            Contains(FormatPractice(data).value, "Question: " + ToText(Prop(p, "question").value))
  {
    var ps := OptGet(OptGet(data, "practice"), "problems").value.items;
    var texts := ProblemTexts(ps).value;
    var k :| 0 <= k < |texts| && texts[k] == ProblemText(ps[i]).value;
    JoinContainsPart(texts, "\n\n", k);
    ContainsPrefix(Join(texts, "\n\n"), texts[k], "Question: " + ToText(Prop(ps[i], "question").value));
  }

  /** A text holding `part` holds every prefix of it. */
  lemma ContainsPrefix(s: string, part: string, prefix: string)
    requires Contains(s, part) && StartsWith(part, prefix)
    ensures Contains(s, prefix)
  {
    var j := ContainsWitness(s, part);
    assert s[j..j + |prefix|] == part[..|prefix|];
    ContainsAt(s, prefix, j);
  }

  // ---------------------------------------------------------------------------------------------
  // Concepts

  /** The bullet in front of a related topic: the UTF-8 bytes of a bullet read back as
      Windows-1252 text, as it stands in the source. */
  const BULLET := "\U{00E2}\U{20AC}\U{00A2} "
  const RELATED := "Related Topics:"

  /** A related topic with a truthy name and description; the others are dropped. */
  predicate Listed(t: Json) {
    !t.JNull? && Present(Prop(t, "name")) && Present(Prop(t, "description"))
  }

  /** `relatedTopics.filter(...).map(...)`: a bullet line per listed topic. */
  function TopicLines(ts: seq<Json>): (r: Result<seq<string>>)
    ensures r.Err? <==> exists i :: 0 <= i < |ts| && ts[i].JNull?
    ensures r.Ok? ==> forall i :: 0 <= i < |r.value| ==> StartsWith(r.value[i], BULLET)
    ensures r.Ok? ==> (r.value == [] <==> forall i :: 0 <= i < |ts| ==> !Listed(ts[i]))
    ensures r.Ok? ==> |r.value| <= |ts|
    decreases |ts|
  {
    if ts == [] then Ok([])
    else
      var rest := TopicLines(ts[1..]);
      assert forall i :: 1 <= i < |ts| ==> ts[i] == ts[1..][i - 1];
      if ts[0].JNull? || rest.Err? then Err(TYPE_ERROR)
      else if !Listed(ts[0]) then rest
      else
        var line := BULLET + ToText(Prop(ts[0], "name").value) + ": " + ToText(Prop(ts[0], "description").value);
        assert line[..|BULLET|] == BULLET;
        Ok([line] + rest.value)
  }

  /** The title and the description, each when truthy. */
  function Heading(c: Json): (r: seq<string>)
    requires !c.JNull?
    ensures |r| <= 2
    ensures Present(Prop(c, "title")) ==> |r| > 0 && r[0] == ToText(Prop(c, "title").value)
  {
    (if Present(Prop(c, "title")) then [ToText(Prop(c, "title").value)] else [])
    + (if Present(Prop(c, "description")) then [ToText(Prop(c, "description").value)] else [])
  }

  /** `data?.concepts?.relatedTopics?.length`. */
  function TopicCount(data: Option<Json>): Option<Json> {
    OptGet(OptGet(OptGet(data, "concepts"), "relatedTopics"), "length")
  }

  /** `formatConcepts`: the title, the description and, when the reply lists related topics, the
      `Related Topics:` heading and a bullet per complete topic, separated by blank lines. A truthy
      `length` on anything but an array throws (no `filter`). */
  function FormatConcepts(data: Option<Json>): (r: Result<string>)
    ensures !Present(OptGet(data, "concepts")) ==> r == Ok("")
    ensures r.Err? <==>
      && Present(TopicCount(data))
      && var topics := OptGet(OptGet(data, "concepts"), "relatedTopics").value;
         !topics.JArr? || exists i :: 0 <= i < |topics.items| && topics.items[i].JNull?
  {
    var concepts := OptGet(data, "concepts");
    if !Present(concepts) then Ok("")
    else
      var head := Heading(concepts.value);
      var topics := Prop(concepts.value, "relatedTopics");
      if !Present(TopicCount(data)) then Ok(Join(head, "\n\n"))
      else if !topics.value.JArr? then Err(TYPE_ERROR)
      else
        match TopicLines(topics.value.items)
        case Err(e) => Err(e)
        case Ok(lines) => Ok(Join(head + [RELATED] + lines, "\n\n"))
  }

  /** Related topics bring their heading and the title, when truthy, shows. */
  lemma ConceptsShown(data: Option<Json>)
    requires FormatConcepts(data).Ok? && Present(OptGet(data, "concepts"))
    ensures Present(TopicCount(data)) ==> Contains(FormatConcepts(data).value, RELATED)
    ensures var c := OptGet(data, "concepts").value;
            Present(Prop(c, "title")) ==> Contains(FormatConcepts(data).value, ToText(Prop(c, "title").value))
  {
    var c := OptGet(data, "concepts").value;
    var head := Heading(c);
    if Present(TopicCount(data)) {
      var parts := head + [RELATED] + TopicLines(Prop(c, "relatedTopics").value.items).value;
      assert parts[|head|] == RELATED;
      JoinContainsPart(parts, "\n\n", |head|);
      if Present(Prop(c, "title")) {
        assert parts[0] == head[0];
        JoinContainsPart(parts, "\n\n", 0);
      }
    } else if Present(Prop(c, "title")) {
      JoinContainsPart(head, "\n\n", 0);
    }
  }

  // ---------------------------------------------------------------------------------------------
  // The whole reply

  datatype Whiteboard = Whiteboard(steps: string, visual: Json, practice: string, concepts: string)

  const QUESTION_PREFIX := "Your Question: "

  /** `processAIResponse`: the four sections of the board, the steps led by the question. It
      throws when a formatter does. */
  function ProcessAIResponse(raw: string, question: string, parse: Parser): (r: Result<Whiteboard>)
    ensures var data := Extract(raw, parse);
      && (r.Err? <==> FormatSteps(data).Err? || FormatVisual(data).Err? || FormatPractice(data).Err?
                      || FormatConcepts(data).Err?)
      && (r.Ok? ==> r.value.steps == QUESTION_PREFIX + question + "\n\n" + FormatSteps(data).value)
      && (r.Ok? ==> r.value.visual == FormatVisual(data).value)
      && (r.Ok? ==> r.value.practice == FormatPractice(data).value)
      && (r.Ok? ==> r.value.concepts == FormatConcepts(data).value)
  {
    var data := Extract(raw, parse);
    var steps :- FormatSteps(data);
    var visual :- FormatVisual(data);
    var practice :- FormatPractice(data);
    var concepts :- FormatConcepts(data);
    Ok(Whiteboard(QUESTION_PREFIX + question + "\n\n" + steps, visual, practice, concepts))
  }

  /** A reply that is not JSON still gives a board: the question with the placeholder steps, the
      fallback plot and empty practice and concepts. */
  lemma UnparseableReplyGivesFallbackBoard(raw: string, question: string, parse: Parser)
    requires parse(JsonSource(raw)).None?
    ensures ProcessAIResponse(raw, question, parse)
            == Ok(Whiteboard(QUESTION_PREFIX + question + "\n\n" + NO_STEPS, DEFAULT_VISUAL, "", ""))
  {
  }
}
