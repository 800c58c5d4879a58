/** The tutor request of `lib/aitutor/geminiHandler.ts`: the prompt sent to the generator and the
    board built from its reply, with a default for every missing section and two error boards.
    The generator and `JSON.parse` are oracles. */
module Gemini {
  import opened Base
  import opened Json
  import opened Text
  import ResponseHandler

  // ---------------------------------------------------------------------------------------------
  // The prompt

  const INTRO := "You are an expert "
  const ASKED := " tutor. A student has asked: \""
  const QUOTE_END := "\"\n\n"

  /** The sentence a teaching style adds; other styles add nothing. */
  function StyleSentence(style: string): (r: string)
    ensures r == "" <==> style !in {"step-by-step", "quick-response", "interactive"}
  {
    if style == "step-by-step" then "Break down the solution into clear, sequential steps. "
    else if style == "quick-response" then "Provide a concise explanation with key points. "
    else if style == "interactive" then "Use real-world examples and applications. "
    else ""
  }

  /** The JSON layout the reply is asked to follow, line by line; the same for every request. */
  const FORMAT_LINES: seq<string> := [
    "    Format your response as a JSON object with these EXACT sections:",
    "    {",
    "      \"steps\": \"Provide a clear step-by-step solution here. Break down the explanation into numbered steps. Use markdown for formatting.\",",
    "      ",
    "      \"visual\": {",
    "        \"type\": \"function\",",
    "        \"data\": {",
    "          \"function\": \"The mathematical function in JavaScript notation (e.g., 'Math.sin(x)')\",",
    "          \"domain\": [-10, 10],",
    "          \"keyPoints\": {",
    "            \"intercepts\": [[x1, y1], [x2, y2]],",
    "            \"maxima\": [[x, y]],",
    "            \"minima\": [[x, y]]",
    "          }",
    "        }",
    "      },",
    "      ",
    "      \"practice\": {",
    "        \"problems\": [",
    "          {",
    "            \"question\": \"A similar but different practice problem\",",
    "            \"difficulty\": \"easy|medium|hard\",",
    "            \"hint\": \"Optional hint for the student\",",
    "            \"solution\": \"Step-by-step solution to the practice problem\"",
    "          }",
    "        ]",
    "      },",
    "      ",
    "      \"concepts\": {",
    "        \"title\": \"Main concept or topic\",",
    "        \"description\": \"Brief overview of the key concept\",",
    "        \"relatedTopics\": [",
    "          {",
    "            \"name\": \"Related concept name\",",
    "            \"description\": \"How this concept connects to the main topic\"",
    "          }",
    "        ],",
    "        \"examples\": [",
    "          {",
    "            \"problem\": \"Example problem showing the concept\",",
    "            \"solution\": \"Solution demonstrating the concept\"",
    "          }",
    "        ]",
    "      }",
    "    }",
    "",
    "    Important:",
    "    1. Keep the EXACT same structure for each section",
    "    2. For math expressions, use LaTeX format inside $$ markers",
    "    3. For the visual section, ensure the function is in valid JavaScript notation",
    "    4. Break down steps into clear numbered points",
    "    5. Include at least one practice problem",
    "    6. Link the concepts to the main topic"]

  /** Each line preceded by a line break. */
  function OnNewLines(lines: seq<string>): string {
    if lines == [] then "" else "\n" + lines[0] + OnNewLines(lines[1..])
  }

  const FORMAT: string := OnNewLines(FORMAT_LINES)

  /** The prompt's opening, up to the quotation mark before the question. */
  function Opening(subject: string): string {
    INTRO + subject + ASKED
  }

  /** The prompt for a given block of format instructions. */
  function PromptWith(format: string, subject: string, question: string, style: string): string {
    Opening(subject) + question + QUOTE_END + StyleSentence(style) + format
  }

  /** `generatePrompt`: the subject and the quoted question, the style sentence, then the format
      instructions whatever the style. */
  function Prompt(subject: string, question: string, style: string): string {
    PromptWith(FORMAT, subject, question, style)
  }

  /** Whatever the format instructions, the prompt begins with the subject and the quoted
      question, and ends with the instructions. */
  lemma PromptWithLayout(format: string, subject: string, question: string, style: string)
    ensures StartsWith(PromptWith(format, subject, question, style), INTRO + subject + ASKED + question + QUOTE_END)
    ensures EndsWith(PromptWith(format, subject, question, style), format)
  {
    var head := INTRO + subject + ASKED + question + QUOTE_END;
    var r := head + StyleSentence(style) + format;
    assert PromptWith(format, subject, question, style) == r;
    assert r[..|head|] == head;
    assert r[|r| - |format|..] == format;
  }

  /** The prompt begins with the subject and the quoted question and ends with the format
      instructions, for every teaching style. */
  lemma PromptLayout(subject: string, question: string, style: string)
    ensures StartsWith(Prompt(subject, question, style), INTRO + subject + ASKED + question + QUOTE_END)
    ensures EndsWith(Prompt(subject, question, style), FORMAT)
  {
    PromptWithLayout(FORMAT, subject, question, style);
  }

  /** A common ending can be dropped. */
  lemma DropCommonSuffix(a: string, b: string, c: string)
    requires a + c == b + c
    ensures a == b
  {
    assert a == (a + c)[..|a|];
    assert b == (b + c)[..|b|];
  }

  /** A common beginning can be dropped. */
  lemma DropCommonPrefix(c: string, a: string, b: string)
    requires c + a == c + b
    ensures a == b
  {
    assert a == (c + a)[|c|..];
    assert b == (c + b)[|c|..];
  }

  /** The two subjects' openings differ right after `INTRO`, so the subject is recovered from the
      prompt. */
  lemma SubjectFromOpening(s1: string, s2: string, y1: string, y2: string)
    requires s1 in {"math", "science"} && s2 in {"math", "science"}
    requires Opening(s1) + y1 == Opening(s2) + y2
    ensures s1 == s2 && y1 == y2
  {
    var k := |INTRO|;
    assert Opening(s1)[k] == s1[0] && Opening(s2)[k] == s2[0];
    assert (Opening(s1) + y1)[k] == Opening(s1)[k];
    assert (Opening(s2) + y2)[k] == Opening(s2)[k];
    DropCommonPrefix(Opening(s1), y1, y2);
  }

  /** What tells the style sentences apart from the end: each is empty or ends in a space, and two
      non-empty ones with the same fourth character from the end are the same. */
  predicate Distinguishable(l1: string, l2: string) {
    && (l1 == "" || (|l1| >= 4 && l1[|l1| - 1] == ' '))
    && (l2 == "" || (|l2| >= 4 && l2[|l2| - 1] == ' '))
    && (l1 != "" && l2 != "" && l1[|l1| - 4] == l2[|l2| - 4] ==> l1 == l2)
  }

  /** The fourth character from the end of each style sentence. */
  function Mark(style: string): char {
    if style == "step-by-step" then 'p' else if style == "quick-response" then 't' else 'n'
  }

  /** Each style sentence is empty or ends in a space, with its mark fourth from the end. */
  lemma SentenceEnding(t: string)
    ensures var l := StyleSentence(t); l == "" || (|l| >= 4 && l[|l| - 1] == ' ' && l[|l| - 4] == Mark(t))
  {
  }

  /** The style sentences are told apart that way. */
  lemma SentencesDistinguishable(t1: string, t2: string)
    ensures Distinguishable(StyleSentence(t1), StyleSentence(t2))
  {
    SentenceEnding(t1);
    SentenceEnding(t2);
  }

  /** The last character of a concatenation. */
  lemma LastOfAppend(a: string, b: string)
    requires a + b != []
    ensures b != [] ==> (a + b)[|a + b| - 1] == b[|b| - 1]
    ensures b == [] ==> (a + b)[|a + b| - 1] == a[|a| - 1]
    ensures |b| >= 4 ==> (a + b)[|a + b| - 4] == b[|b| - 4]
  {
  }

  /** After the question, the sentence is recognisable from the end: with no sentence the closing
      blank line comes last, and otherwise the sentence's own ending tells which. */
  lemma SentenceFromTail(q1: string, l1: string, q2: string, l2: string)
    requires Distinguishable(l1, l2)
    requires q1 + QUOTE_END + l1 == q2 + QUOTE_END + l2
    ensures l1 == l2 && q1 == q2
  {
    var z1, z2 := q1 + QUOTE_END, q2 + QUOTE_END;
    assert z1[|z1| - 1] == '\n' && z2[|z2| - 1] == '\n';
    LastOfAppend(z1, l1);
    LastOfAppend(z2, l2);
    DropCommonSuffix(z1, z2, l1);
    DropCommonSuffix(q1, q2, QUOTE_END);
  }

  /** The parts of a prompt are recovered from it, whatever the format instructions. */
  lemma PartsDetermined(format: string, s1: string, q1: string, l1: string, s2: string, q2: string, l2: string)
    requires s1 in {"math", "science"} && s2 in {"math", "science"}
    requires Distinguishable(l1, l2)
    requires Opening(s1) + q1 + QUOTE_END + l1 + format == Opening(s2) + q2 + QUOTE_END + l2 + format
    ensures s1 == s2 && q1 == q2 && l1 == l2
  {
    var y1 := q1 + QUOTE_END + l1;
    var y2 := q2 + QUOTE_END + l2;
    assert Opening(s1) + q1 + QUOTE_END + l1 == Opening(s1) + y1;
    assert Opening(s2) + q2 + QUOTE_END + l2 == Opening(s2) + y2;
    DropCommonSuffix(Opening(s1) + y1, Opening(s2) + y2, format);
    SubjectFromOpening(s1, s2, y1, y2);
    SentenceFromTail(q1, l1, q2, l2);
  }

  /** The prompt identifies the request: for the two subjects, equal prompts come from the same
      subject, the same question and the same style sentence, whatever the format instructions. */
  lemma PromptWithDeterminesRequest(format: string, s1: string, q1: string, t1: string,
                                    s2: string, q2: string, t2: string)
    requires s1 in {"math", "science"} && s2 in {"math", "science"}
    requires PromptWith(format, s1, q1, t1) == PromptWith(format, s2, q2, t2)
    ensures s1 == s2 && q1 == q2 && StyleSentence(t1) == StyleSentence(t2)
  {
    SentencesDistinguishable(t1, t2);
    PartsDetermined(format, s1, q1, StyleSentence(t1), s2, q2, StyleSentence(t2));
  }

  // ---------------------------------------------------------------------------------------------
  // The reply

  /** What the generator did with the prompt: the reply text, or a failure (a thrown error). */
  datatype Generation = Generated(text: string) | GenerationFailed

  datatype Board = Board(steps: Json, visual: Json, practice: Json, concepts: Json)

  /** `AIResponse`: `type` is `success` or `error`. */
  datatype Response = Response(success: bool, content: Board)

  const NO_PROBLEMS := JObj(map["problems" := JArr([])])
  const NO_CONCEPTS := JObj(map["title" := JStr(""), "description" := JStr(""), "relatedTopics" := JArr([])])

  const PROCESSING_ERROR := "Error processing response"
  const GENERATING_ERROR := "Error generating response"

  /** The error board: the message in place of the steps, every other section at its default. */
  function ErrorBoard(message: string): Board {
    Board(JStr(message), ResponseHandler.DEFAULT_VISUAL, NO_PROBLEMS, NO_CONCEPTS)
  }

  /** The board built from what the generator did: the parsed reply's sections with a default for
      each falsy or missing one. A reply that does not parse gives the processing error board; a
      reply of `null` throws on `parsedContent.steps`, which the outer handler turns into the
      generating error board, as it does a failed generation. */
  function Answer(reply: Generation, parse: string -> Option<Json>): (r: Response)
    ensures r.success <==> reply.Generated? && parse(JsonSource(reply.text)).Some? && !parse(JsonSource(reply.text)).value.JNull?
    ensures reply.GenerationFailed? ==> r.content == ErrorBoard(GENERATING_ERROR)
    ensures reply.Generated? && parse(JsonSource(reply.text)).None? ==> r.content == ErrorBoard(PROCESSING_ERROR)
    ensures reply.Generated? && parse(JsonSource(reply.text)) == Some(JNull) ==> r.content == ErrorBoard(GENERATING_ERROR)
    ensures r.success ==>
      var v := parse(JsonSource(reply.text)).value;
      && r.content.steps == Fallback(Prop(v, "steps"), JStr(ResponseHandler.NO_STEPS))
      && r.content.visual == Fallback(Prop(v, "visual"), ResponseHandler.DEFAULT_VISUAL)
      && r.content.practice == Fallback(Prop(v, "practice"), NO_PROBLEMS)
      && r.content.concepts == Fallback(Prop(v, "concepts"), NO_CONCEPTS)
  {
    match reply
    case GenerationFailed => Response(false, ErrorBoard(GENERATING_ERROR))
    case Generated(text) =>
      match parse(JsonSource(text))
      case None => Response(false, ErrorBoard(PROCESSING_ERROR))
      case Some(v) =>
        if v.JNull? then Response(false, ErrorBoard(GENERATING_ERROR))
        else Response(true, Board(Fallback(Prop(v, "steps"), JStr(ResponseHandler.NO_STEPS)),
                                  Fallback(Prop(v, "visual"), ResponseHandler.DEFAULT_VISUAL),
                                  Fallback(Prop(v, "practice"), NO_PROBLEMS),
                                  Fallback(Prop(v, "concepts"), NO_CONCEPTS)))
  }

  /** `handleGeminiRequest`: the prompt goes to the generator, whose outcome becomes the board. */
  function HandleRequest(subject: string, question: string, style: string,
                         generate: string -> Generation, parse: string -> Option<Json>): Response {
    Answer(generate(Prompt(subject, question, style)), parse)
  }

  /** Every section of every board, success or error, is a truthy value: the board never shows an
      empty or missing section. */
  lemma SectionsAlwaysFilled(reply: Generation, parse: string -> Option<Json>)
    ensures var b := Answer(reply, parse).content;
            Truthy(b.steps) && Truthy(b.visual) && Truthy(b.practice) && Truthy(b.concepts)
  {
  }

  /** A reply whose JSON has none of the sections gives the all-default board, as a success. */
  lemma EmptyReplyGivesDefaults(text: string, parse: string -> Option<Json>)
    requires parse(JsonSource(text)) == Some(JObj(map[]))
    ensures Answer(Generated(text), parse)
            == Response(true, Board(JStr(ResponseHandler.NO_STEPS), ResponseHandler.DEFAULT_VISUAL, NO_PROBLEMS, NO_CONCEPTS))
  {
  }
}
