/** The web front end of the voice math tutor (`voice_chatbot/app.py`): one `MathTutor` instance
    behind a JSON endpoint. Each request is a deterministic state transition once the intent
    classifier's verdict and the text generator are given as oracles. */
module WebTutor {
  import opened Base
  import opened Text
  import opened Conversation
  import Json

  /** The tutor's state: `difficulty_level` and the `context` window. */
  datatype Tutor = Tutor(difficulty: string, context: seq<Exchange<string>>)

  const CLARIFY := "I couldn't understand that. Could you please repeat?"
  const FAREWELL := "Goodbye! Feel free to come back anytime you need help with math!"
  const TOO_MANY_REQUESTS := "I'm currently handling too many requests. Please try again in a moment."
  const TROUBLE := "I'm having trouble processing your request. Could you try again?"
  const DIFFICULTY_SET := "Difficulty level set to "
  const NO_TEXT := "No text received"

  predicate Valid(t: Tutor) {
    |t.context| <= CAPACITY
  }

  /** `MathTutor()`: empty memory, medium difficulty. */
  function Fresh(): (t: Tutor)
    ensures Valid(t) && t.context == [] && t.difficulty == "medium"
  {
    Tutor("medium", [])
  }

  /** The speech-oriented prompt of this front end. It embeds only the question: neither the
      difficulty nor the remembered context reach the generator. */
  function Prompt(problem: string): string {
    PROMPT_HEAD + problem + PROMPT_RULES
  }

  const PROMPT_HEAD := "You are a friendly math tutor. Explain in simple, spoken language.\n        Question: "
  const PROMPT_RULES := "\n        Rules: \n        - Use natural speech (say \"squared\" not \"^2\")\n        - Keep it brief and clear\n        - Avoid special characters"

  /** The question reaches the generator verbatim, right after the fixed preamble. */
  lemma PromptCarriesQuestion(problem: string)
    ensures StartsWith(Prompt(problem), PROMPT_HEAD + problem)
    ensures Contains(Prompt(problem), problem)
  {
    ContainsAt(Prompt(problem), problem, |PROMPT_HEAD|);
  }

  /** The user-safe apology for a generator failure. */
  function Apology(error: string): (r: string)
    ensures r == TOO_MANY_REQUESTS <==> Contains(error, "resource_exhausted")
    ensures r == TROUBLE <==> !Contains(error, "resource_exhausted")
  {
    if Contains(error, "resource_exhausted") then TOO_MANY_REQUESTS else TROUBLE
  }

  /** `get_math_help`: the generated text, or one of two fixed apologies, never the raw error. */
  function MathHelp(problem: string, generate: string -> Reply): (r: string)
    ensures generate(Prompt(problem)).Generated? ==> r == generate(Prompt(problem)).text
    ensures generate(Prompt(problem)).Failed? ==> r == TOO_MANY_REQUESTS || r == TROUBLE
  {
    match generate(Prompt(problem))
    case Generated(text) => text
    case Failed(error) => Apology(error)
  }

  /** The state after a request and the text the tutor answers with. */
  datatype Turn = Turn(tutor: Tutor, reply: string)

  /** Empty or missing text. */
  predicate Blank(text: Option<string>) {
    text.None? || text.value == ""
  }

  /** Does this request go down the explanation path? A classifier failure counts as any intent
      other than the two special ones. */
  predicate Explains(text: Option<string>, verdict: Verdict) {
    !Blank(text) && !(verdict.Intent? && verdict.name in {"set_difficulty", "quit"})
  }

  /** `process_request`. A `set_difficulty` intent without a `difficulty` parameter raises a
      `KeyError`, which surfaces as `Err` and leaves the tutor untouched. */
  function ProcessRequest(t: Tutor, text: Option<string>, verdict: Verdict, generate: string -> Reply): (r: Result<Turn>)
    // empty input: fixed reply, neither the verdict nor the generator matters, nothing changes
    ensures Blank(text) ==> r == Ok(Turn(t, CLARIFY))
    // set_difficulty: the parameter is stored verbatim, the context is not touched
    ensures !Blank(text) && verdict.Intent? && verdict.name == "set_difficulty" ==>
              if "difficulty" in verdict.params
              then r == Ok(Turn(t.(difficulty := verdict.params["difficulty"]), DIFFICULTY_SET + verdict.params["difficulty"]))
              else r.Err?
    // quit: the farewell, no state change
    ensures !Blank(text) && verdict.Intent? && verdict.name == "quit" ==> r == Ok(Turn(t, FAREWELL))
    // explanation: the exchange is remembered last, whatever the generator answered
    ensures Explains(text, verdict) ==>
              && r.Ok? && r.value.tutor.difficulty == t.difficulty
              && r.value.reply == MathHelp(text.value, generate)
              && r.value.tutor.context == Remember(t.context, Exchange(text.value, r.value.reply))
    ensures Valid(t) && r.Ok? ==> Valid(r.value.tutor)
    ensures r.Err? ==> verdict.Intent? && verdict.name == "set_difficulty"
  {
    if Blank(text) then Ok(Turn(t, CLARIFY))
    else if verdict.Intent? && verdict.name == "set_difficulty" then
      if "difficulty" in verdict.params then
        var level := verdict.params["difficulty"];
        Ok(Turn(t.(difficulty := level), DIFFICULTY_SET + level))
      else Err("'difficulty'")
    else if verdict.Intent? && verdict.name == "quit" then Ok(Turn(t, FAREWELL))
    else
      var reply := MathHelp(text.value, generate);
      Ok(Turn(t.(context := Remember(t.context, Exchange(text.value, reply))), reply))
  }

  /** A classifier failure is handled exactly like an ordinary intent: the text is explained. */
  lemma ClassifierFailureIsExplained(t: Tutor, text: string, name: string, params: map<string, string>, generate: string -> Reply)
    requires name != "set_difficulty" && name != "quit"
    ensures ProcessRequest(t, Some(text), NoResult, generate) == ProcessRequest(t, Some(text), Intent(name, params), generate)
  {
  }

  /** A generator failure is remembered with its apology as the response. */
  lemma FailedTurnIsRemembered(t: Tutor, text: string, verdict: Verdict, generate: string -> Reply)
    requires Explains(Some(text), verdict) && generate(Prompt(text)).Failed?
    ensures var r := ProcessRequest(t, Some(text), verdict, generate);
            && r.Ok? && r.value.reply in {TOO_MANY_REQUESTS, TROUBLE}
            && r.value.tutor.context[|r.value.tutor.context| - 1] == Exchange(text, r.value.reply)
  {
  }

  // -----------------------------------------------------------------------------------------------
  // The endpoint

  /** The body as `request.json` reads it. A body that is not JSON makes the read raise (a
      Werkzeug `BadRequest`, whose text is carried here) inside the `try`; otherwise it is any
      JSON value, not only an object. */
  datatype Body = Unreadable(error: string) | Parsed(data: Json.Json)

  /** The reply's payload: the user's message, echoed as the JSON value it was, next to the
      tutor's reply; or an error text. */
  datatype Payload = Answer(userMessage: Json.Json, response: string) | Problem(error: string)
  datatype HttpReply = HttpReply(status: int, payload: Payload)

  /** The text of a `TypeError` Python raises on a value of the wrong kind. Its exact words depend
      on the Python and protobuf versions and are not modelled. */
  const TYPE_ERROR := "TypeError"

  /** Python truthiness of a parsed JSON value: `null`, `false`, `0`, `""`, `[]` and `{}` are false. */
  predicate PyTruthy(v: Json.Json) {
    match v
    case JNull => false
    case JBool(b) => b
    case JNum(n) => n != 0
    case JStr(s) => s != ""
    case JArr(items) => items != []
    case JObj(fields) => fields != map[]
  }

  /** Python's `key in v`: a key of a dict, an element of a list, a substring of a string; a
      number, a boolean or `None` is not iterable and raises. */
  function In(key: string, v: Json.Json): Result<bool> {
    match v
    case JObj(fields) => Ok(key in fields)
    case JArr(items) => Ok(Json.JStr(key) in items)
    case JStr(s) => Ok(Contains(s, key))
    case _ => Err(TYPE_ERROR)
  }

  /** Python's `v[key]` for a string key: a dict's entry; every other kind raises. */
  function Subscript(v: Json.Json, key: string): Result<Json.Json>
    requires In(key, v) == Ok(true)
  {
    match v
    case JObj(fields) => Ok(fields[key])
    case _ => Err(TYPE_ERROR)
  }

  /** `tutor.process_request(user_message)` on a message of any JSON kind. A falsy one is "not
      text" and gets the clarification; a non-empty string is processed; any other value makes
      the intent classifier's request builder raise before it is sent. */
  function ProcessMessage(t: Tutor, message: Json.Json, verdict: Verdict, generate: string -> Reply): Result<Turn> {
    match message
    case JStr(s) => ProcessRequest(t, Some(s), verdict, generate)
    case _ => if PyTruthy(message) then Err(TYPE_ERROR) else ProcessRequest(t, None, verdict, generate)
  }

  /** `/process_audio`: 400 for a falsy body or one without a `text` key or element, 500 when
      reading the body, the `in` test, the subscript or processing raises, else the user's
      message echoed next to the tutor's reply. */
  function ProcessAudio(t: Tutor, body: Body, verdict: Verdict, generate: string -> Reply): (r: (Tutor, HttpReply))
    ensures body.Unreadable? ==> r == (t, HttpReply(500, Problem("Server error: " + body.error)))
    // `not data`: null, false, 0, "", [] and {} have no text
    ensures body.Parsed? && !PyTruthy(body.data) ==> r == (t, HttpReply(400, Problem(NO_TEXT)))
    // `'text' not in data`, for each kind that supports `in`
    ensures body.Parsed? && body.data.JObj? && "text" !in body.data.fields ==> r == (t, HttpReply(400, Problem(NO_TEXT)))
    ensures body.Parsed? && body.data.JArr? && Json.JStr("text") !in body.data.items ==> r == (t, HttpReply(400, Problem(NO_TEXT)))
    ensures body.Parsed? && body.data.JStr? && !Contains(body.data.s, "text") ==> r == (t, HttpReply(400, Problem(NO_TEXT)))
    // a true or non-zero number cannot be searched, and a list or string holding "text" cannot be
    // indexed by it: both raise
    ensures body.Parsed? && PyTruthy(body.data) && (body.data.JNum? || body.data.JBool?) ==> r.0 == t && r.1.status == 500
    ensures body.Parsed? && body.data.JArr? && Json.JStr("text") in body.data.items ==> r.0 == t && r.1.status == 500
    ensures body.Parsed? && body.data.JStr? && Contains(body.data.s, "text") ==> r.0 == t && r.1.status == 500
    // an object with a text field: the field is processed, whatever its kind
    ensures body.Parsed? && body.data.JObj? && "text" in body.data.fields ==>
              var message := body.data.fields["text"];
              && (message.JStr? ==>
                    match ProcessRequest(t, Some(message.s), verdict, generate)
                    case Ok(turn) => r == (turn.tutor, HttpReply(200, Answer(message, turn.reply)))
                    case Err(_) => r.0 == t && r.1.status == 500)
              && (!PyTruthy(message) ==> r == (t, HttpReply(200, Answer(message, CLARIFY))))
              && (PyTruthy(message) && !message.JStr? ==> r.0 == t && r.1.status == 500)
    ensures r.1.status in {200, 400, 500}
    ensures r.1.status == 500 ==> r.1.payload.Problem? && StartsWith(r.1.payload.error, "Server error: ")
    // the tutor changes only on a 200
    ensures r.1.status != 200 ==> r.0 == t
  {
    match body
    case Unreadable(error) => (t, HttpReply(500, Problem("Server error: " + error)))
    case Parsed(data) =>
      if !PyTruthy(data) then (t, HttpReply(400, Problem(NO_TEXT)))
      else
        match In("text", data)
        case Err(e) => (t, HttpReply(500, Problem("Server error: " + e)))
        case Ok(found) =>
          if !found then (t, HttpReply(400, Problem(NO_TEXT)))
          else
            match Subscript(data, "text")
            case Err(e) => (t, HttpReply(500, Problem("Server error: " + e)))
            case Ok(message) =>
              match ProcessMessage(t, message, verdict, generate)
              case Ok(turn) => (turn.tutor, HttpReply(200, Answer(message, turn.reply)))
              case Err(e) => (t, HttpReply(500, Problem("Server error: " + e)))
  }

  /** Bodies that are not an object of strings: an empty list and zero have no text; a bare
      "text", a list holding it and an object whose text is a number all raise. */
  lemma OddBodies(t: Tutor, verdict: Verdict, generate: string -> Reply)
    ensures ProcessAudio(t, Parsed(Json.JArr([])), verdict, generate) == (t, HttpReply(400, Problem(NO_TEXT)))
    ensures ProcessAudio(t, Parsed(Json.JNum(0)), verdict, generate) == (t, HttpReply(400, Problem(NO_TEXT)))
    ensures ProcessAudio(t, Parsed(Json.JStr("text")), verdict, generate).1.status == 500
    ensures ProcessAudio(t, Parsed(Json.JArr([Json.JStr("text")])), verdict, generate).1.status == 500
    ensures ProcessAudio(t, Parsed(Json.JObj(map["text" := Json.JNum(5)])), verdict, generate).1.status == 500
  {
    assert Contains("text", "text") by { assert StartsWith("text", "text"); }
  }

  // -----------------------------------------------------------------------------------------------
  // Many requests

  datatype Request = Request(text: Option<string>, verdict: Verdict, generate: string -> Reply)

  function Run(t: Tutor, reqs: seq<Request>): Tutor
    decreases |reqs|
  {
    if reqs == [] then t
    else
      var r := ProcessRequest(t, reqs[0].text, reqs[0].verdict, reqs[0].generate);
      Run(if r.Ok? then r.value.tutor else t, reqs[1..])
  }

  /** The exchanges the explanation turns among `reqs` produce. They do not depend on the state:
      this front end's prompt carries only the question. */
  function Explanations(reqs: seq<Request>): seq<Exchange<string>>
    decreases |reqs|
  {
    if reqs == [] then []
    else
      var rest := Explanations(reqs[1..]);
      if Explains(reqs[0].text, reqs[0].verdict)
      then [Exchange(reqs[0].text.value, MathHelp(reqs[0].text.value, reqs[0].generate))] + rest
      else rest
  }

  lemma {:induction false} RunRemembersExplanations(t: Tutor, reqs: seq<Request>)
    ensures Run(t, reqs).context == RememberAll(t.context, Explanations(reqs))
    decreases |reqs|
  {
    if reqs != [] {
      var q := reqs[0];
      var r := ProcessRequest(t, q.text, q.verdict, q.generate);
      var t' := if r.Ok? then r.value.tutor else t;
      RunRemembersExplanations(t', reqs[1..]);
      if Explains(q.text, q.verdict) {
        var e := Exchange(q.text.value, MathHelp(q.text.value, q.generate));
        assert ([e] + Explanations(reqs[1..]))[1..] == Explanations(reqs[1..]);
      }
    }
  }

  /** Over any sequence of requests, the memory of a fresh tutor is exactly the last three
      explanation turns, oldest first. */
  lemma ContextIsLastThreeExplanations(reqs: seq<Request>)
    ensures Run(Fresh(), reqs).context == LastN(Explanations(reqs), CAPACITY)
    ensures Valid(Run(Fresh(), reqs))
  {
    RunRemembersExplanations(Fresh(), reqs);
    WindowIsLastThree(Explanations(reqs));
  }
}
