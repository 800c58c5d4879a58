/** The command-line front end of the voice math tutor (`voice_chatbot/main.py`): the body of the
    `while True` loop in `MathTutor.run` and the request dispatch in `process_math_request`.
    Recognised speech, the intent classifier, the equation solver, the plotter and the text
    generator are oracles; what the loop prints and speaks is the turn's output. */
module CliTutor {
  import opened Base
  import opened Text
  import opened Conversation

  /** The local variable `response` of `run`: unbound until the first assignment, then a text or
      Python `None` (what `get_math_help` returns when the generator fails). */
  datatype Slot = Unset | Holds(value: Option<string>)

  /** The loop's state: `difficulty_level`, `context`, whether the loop is still running, and the
      last value of `response`, which survives from one iteration to the next. */
  datatype Tutor = Tutor(difficulty: string, context: seq<Exchange<Option<string>>>, running: bool, response: Slot)

  /** The library pass-throughs and the generator, as seen from the loop. */
  datatype Tools = Tools(solve: string -> string, plot: string -> string, generate: string -> Reply)

  /** What one iteration produces: nothing, a reply printed and handed to `speak`, the farewell
      (spoken, then the loop ends) or an uncaught exception that ends `run`. */
  datatype Output = Silent | Say(text: Option<string>) | Farewell | Crash(error: string)

  const FAREWELL := "Goodbye! Feel free to come back anytime you need help with math!"
  const DIFFICULTY_SET := "Difficulty level set to "

  predicate Valid(t: Tutor) {
    |t.context| <= CAPACITY
  }

  function Fresh(): (t: Tutor)
    ensures Valid(t) && t.running && t.context == [] && t.difficulty == "medium"
  {
    Tutor("medium", [], true, Unset)
  }

  /** `speak`: the text actually synthesised, nothing for `None` or the empty text. */
  function Speak(text: Option<string>): (r: Option<string>)
    ensures r.Some? <==> text.Some? && text.value != ""
    ensures r.Some? ==> r == text
  {
    if text.None? || text.value == "" then None else text
  }

  /** What the loop speaks for one iteration's output. */
  function Spoken(o: Output): Option<string> {
    match o
    case Say(text) => Speak(text)
    case Farewell => Some(FAREWELL)
    case _ => None
  }

  // -----------------------------------------------------------------------------------------------
  // The explanation prompt, with the context rendered as Python renders a list of dicts

  /** Python's `repr` of a string: single quotes unless the text holds a single quote and no
      double quote; backslash, the chosen quote and the common control characters escaped. */
  function Repr(s: string): (r: string)
    ensures |r| >= 2
  {
    var q := if '\'' in s && '"' !in s then '"' else '\'';
    [q] + Escape(s, q) + [q]
  }

  function Escape(s: string, q: char): string {
    if s == [] then []
    else
      var c := s[0];
      var e := if c == '\\' then "\\\\" else if c == q then ['\\', q]
               else if c == '\n' then "\\n" else if c == '\r' then "\\r" else if c == '\t' then "\\t"
               else [c];
      e + Escape(s[1..], q)
  }

  function ExchangeRepr(e: Exchange<Option<string>>): string {
    "{'question': " + Repr(e.question) + ", 'response': "
    + (match e.response case None => "None" case Some(t) => Repr(t)) + "}"
  }

  function ItemsRepr(es: seq<Exchange<Option<string>>>): string {
    if es == [] then [] else if |es| == 1 then ExchangeRepr(es[0]) else ExchangeRepr(es[0]) + ", " + ItemsRepr(es[1..])
  }

  /** `{context if context else 'None'}`. */
  function ContextText(context: seq<Exchange<Option<string>>>): (r: string)
    ensures r == "None" <==> context == []
    ensures context != [] ==> StartsWith(r, "[")
  {
    if context == [] then "None" else "[" + ItemsRepr(context) + "]"
  }

  const PROMPT_HEAD := "You are a helpful math tutor. The student's difficulty level is "
  const PROMPT_BREAK := ".\n        "
  const CONTEXT_LABEL := "Previous context: "
  const PROMPT_QUESTION := "\n        \n        Student's question: "
  const PROMPT_TAIL := "\n        \n        Provide a step-by-step explanation. If it's a calculation, show the work.\n        If it's a concept, explain with examples. Include relevant formulas.\n        Keep the explanation clear and encouraging."

  /** The step-by-step prompt of this front end: the opening sentence with the difficulty, the
      rendered context, then the question between two blank lines indented like the f-string, and
      the three lines of instructions. */
  function Prompt(difficulty: string, context: seq<Exchange<Option<string>>>, problem: string): (r: string)
    ensures StartsWith(r, PROMPT_HEAD + difficulty + PROMPT_BREAK + CONTEXT_LABEL)
    ensures EndsWith(r, PROMPT_QUESTION + problem + PROMPT_TAIL)
    ensures var head := |PROMPT_HEAD + difficulty + PROMPT_BREAK + CONTEXT_LABEL|;
            var tail := |PROMPT_QUESTION + problem + PROMPT_TAIL|;
            |r| == head + |ContextText(context)| + tail && r[head..|r| - tail] == ContextText(context)
  {
    var head := PROMPT_HEAD + difficulty + PROMPT_BREAK + CONTEXT_LABEL;
    var tail := PROMPT_QUESTION + problem + PROMPT_TAIL;
    Framed(head, ContextText(context), tail);
    head + ContextText(context) + tail
  }

  /** A text laid out like the prompt contains its difficulty, its labelled context and its
      question, whatever the fixed parts around them. */
  lemma LayoutEmbeds(head: string, difficulty: string, brk: string, tag: string, context: string,
                     question: string, problem: string, tail: string)
    ensures var p := head + difficulty + brk + tag + context + (question + problem + tail);
            && Contains(p, difficulty)
            && Contains(p, tag + context)
            && Contains(p, problem)
  {
    var p := head + difficulty + brk + tag + context + (question + problem + tail);
    var a := head + difficulty;
    var b := a + brk + (tag + context);
    var c := b + question + problem;
    assert p == c + tail;
    ContainsSuffix(head, difficulty);
    ContainsGrow(a, difficulty, brk);
    ContainsGrow(a + brk, difficulty, tag + context);
    ContainsGrow(b, difficulty, question);
    ContainsGrow(b + question, difficulty, problem);
    ContainsGrow(c, difficulty, tail);
    ContainsSuffix(a + brk, tag + context);
    ContainsGrow(b, tag + context, question);
    ContainsGrow(b + question, tag + context, problem);
    ContainsGrow(c, tag + context, tail);
    ContainsSuffix(b + question, problem);
    ContainsGrow(c, problem, tail);
  }

  /** The prompt carries the current difficulty, the labelled context and the question. */
  lemma PromptEmbedsState(difficulty: string, context: seq<Exchange<Option<string>>>, problem: string)
    ensures var p := Prompt(difficulty, context, problem);
            && Contains(p, difficulty)
            && Contains(p, CONTEXT_LABEL + ContextText(context))
            && Contains(p, problem)
  {
    LayoutEmbeds(PROMPT_HEAD, difficulty, PROMPT_BREAK, CONTEXT_LABEL, ContextText(context), PROMPT_QUESTION, problem, PROMPT_TAIL);
  }

  /** With nothing remembered the generator is told so in words. */
  lemma EmptyContextIsNone(difficulty: string, problem: string)
    ensures Contains(Prompt(difficulty, [], problem), CONTEXT_LABEL + "None")
  {
    PromptEmbedsState(difficulty, [], problem);
  }

  // -----------------------------------------------------------------------------------------------
  // One request and one turn

  /** `solve_equation`'s clean-up: only lower-case `solve` is removed, then surrounding white space. */
  function SolverInput(text: string): string {
    PyStrip(ReplaceAll(text, "solve", "", false))
  }

  /** `process_math_request`: `solve` (any case) wins over `plot`; everything else is explained with
      the current difficulty and context. A failed generation is `None`. */
  function MathRequest(t: Tutor, text: string, tools: Tools): (r: Option<string>)
    ensures Contains(Lower(text), "solve") ==> r == Some(tools.solve(SolverInput(text)))
    ensures !Contains(Lower(text), "solve") && Contains(Lower(text), "plot") ==> r == Some(tools.plot(text))
    ensures !Contains(Lower(text), "solve") && !Contains(Lower(text), "plot") ==>
              match tools.generate(Prompt(t.difficulty, t.context, text))
              case Generated(g) => r == Some(g)
              case Failed(_) => r == None
  {
    if Contains(Lower(text), "solve") then Some(tools.solve(SolverInput(text)))
    else if Contains(Lower(text), "plot") then Some(tools.plot(text))
    else
      match tools.generate(Prompt(t.difficulty, t.context, text))
      case Generated(g) => Some(g)
      case Failed(_) => None
  }

  predicate Heard(heard: Option<string>) {
    heard.Some? && heard.value != ""
  }

  predicate Special(verdict: Verdict) {
    verdict.Intent? && verdict.name in {"set_difficulty", "quit"}
  }

  /** One iteration of the loop, as written. With no classifier result the iteration still prints
      and speaks `response`: the previous turn's reply, or an `UnboundLocalError` on the first
      turn, which ends `run`. */
  function Step(t: Tutor, heard: Option<string>, verdict: Verdict, tools: Tools): (r: (Tutor, Output))
    // after quit or a crash nothing more is processed
    ensures !t.running ==> r == (t, Silent)
    // a recognition failure skips the turn
    ensures t.running && !Heard(heard) ==> r == (t, Silent)
    // only the explanation branch touches the context, and only difficulty changes it otherwise
    ensures r.0.context != t.context ==> t.running && Heard(heard) && verdict.Intent? && !Special(verdict)
    ensures r.0.difficulty != t.difficulty ==> verdict.Intent? && verdict.name == "set_difficulty"
    ensures Valid(t) ==> Valid(r.0)
    ensures r.1.Crash? || r.1.Farewell? <==> t.running && !r.0.running
    // set_difficulty stores the classifier's parameter verbatim and says so; without the
    // parameter the lookup raises
    ensures t.running && Heard(heard) && verdict.Intent? && verdict.name == "set_difficulty" ==>
              var ps := verdict.params;
              if "difficulty" in ps then
                var said := Some(DIFFICULTY_SET + ps["difficulty"]);
                r == (t.(difficulty := ps["difficulty"], response := Holds(said)), Say(said))
              else r.1 == Crash("KeyError") && !r.0.running && r.0.context == t.context
    // any other intent is a math request, remembered together with its reply
    ensures t.running && Heard(heard) && verdict.Intent? && !Special(verdict) ==>
              var reply := MathRequest(t, heard.value, tools);
              && r.1 == Say(reply) && r.0.response == Holds(reply) && r.0.running
              && r.0.difficulty == t.difficulty
              && r.0.context == Remember(t.context, Exchange(heard.value, reply))
  {
    if !t.running || !Heard(heard) then (t, Silent)
    else
      var text := heard.value;
      match verdict
      case NoResult =>
        (match t.response
         case Unset => (t.(running := false), Crash("UnboundLocalError"))
         case Holds(previous) => (t, Say(previous)))
      case Intent(name, params) =>
        if name == "set_difficulty" then
          if "difficulty" in params then
            var msg := DIFFICULTY_SET + params["difficulty"];
            (t.(difficulty := params["difficulty"], response := Holds(Some(msg))), Say(Some(msg)))
          else (t.(running := false), Crash("KeyError"))
        else if name == "quit" then (t.(running := false, response := Holds(Some(FAREWELL))), Farewell)
        else
          var reply := MathRequest(t, text, tools);
          (t.(context := Remember(t.context, Exchange(text, reply)), response := Holds(reply)), Say(reply))
  }

  /** What the loop evidently means to do with no classifier result: nothing at all. */
  function StepIntended(t: Tutor, heard: Option<string>, verdict: Verdict, tools: Tools): (r: (Tutor, Output))
    ensures verdict.NoResult? ==> r == (t, Silent)
    ensures !verdict.NoResult? ==> r == Step(t, heard, verdict, tools)
  {
    if verdict.NoResult? then (t, Silent) else Step(t, heard, verdict, tools)
  }

  // -----------------------------------------------------------------------------------------------
  // Properties of single turns

  /** Dispatch is case-insensitive but the clean-up is not: a request that says `Solve` with a
      capital letter reaches the solver with the word still in it. */
  lemma CapitalSolveIsKept(t: Tutor, text: string, tools: Tools)
    requires Contains(Lower(text), "solve") && !Contains(text, "solve")
    ensures MathRequest(t, text, tools) == Some(tools.solve(PyStrip(text)))
  {
    NoMatchAnywhere(text, "solve");
    ReplaceAllNoMatch(text, "solve", "", false);
  }

  /** `solve` beats `plot` whatever else the text says. */
  lemma SolveWinsOverPlot(t: Tutor, text: string, tools: Tools)
    requires Contains(Lower(text), "solve") && Contains(Lower(text), "plot")
    ensures MathRequest(t, text, tools) == Some(tools.solve(SolverInput(text)))
  {
  }

  /** With no classifier result no request is made: the turn does not depend on the tools, and
      neither the context nor the difficulty changes. */
  lemma NoResultMakesNoRequest(t: Tutor, heard: Option<string>, tools1: Tools, tools2: Tools)
    ensures Step(t, heard, NoResult, tools1) == Step(t, heard, NoResult, tools2)
    ensures Step(t, heard, NoResult, tools1).0.context == t.context
    ensures Step(t, heard, NoResult, tools1).0.difficulty == t.difficulty
  {
  }

  /** Quit is terminal: the farewell is spoken, and every later utterance is ignored. */
  lemma QuitIsTerminal(t: Tutor, heard: string, params: map<string, string>, tools: Tools,
                       later: Option<string>, verdict: Verdict, tools2: Tools)
    requires t.running && heard != ""
    ensures var (t', o) := Step(t, Some(heard), Intent("quit", params), tools);
            && o == Farewell && Spoken(o) == Some(FAREWELL) && !t'.running
            && t'.context == t.context && t'.difficulty == t.difficulty
            && Step(t', later, verdict, tools2) == (t', Silent)
  {
  }

  /** A failed turn is remembered too: the stored response is `None` when the generator failed. */
  lemma FailedTurnIsRemembered(t: Tutor, text: string, name: string, params: map<string, string>, tools: Tools)
    requires t.running && text != "" && name != "set_difficulty" && name != "quit"
    requires !Contains(Lower(text), "solve") && !Contains(Lower(text), "plot")
    requires tools.generate(Prompt(t.difficulty, t.context, text)).Failed?
    ensures var (t', o) := Step(t, Some(text), Intent(name, params), tools);
            && o == Say(None) && Spoken(o) == None
            && t'.context == Remember(t.context, Exchange(text, None))
  {
  }

  /** The defect of the loop as written, first half: a classifier failure on the very first
      utterance ends the program. */
  lemma FirstFailureCrashes(heard: string, tools: Tools)
    requires heard != ""
    ensures Step(Fresh(), Some(heard), NoResult, tools) == (Fresh().(running := false), Crash("UnboundLocalError"))
  {
  }

  /** Second half: a later classifier failure repeats the previous turn's reply, whatever was said
      and without consulting any tool. */
  lemma FailureRepeatsPreviousReply(t: Tutor, first: string, v: Verdict, tools: Tools, second: string, tools2: Tools)
    requires t.running && first != "" && second != "" && v.Intent? && v.name != "quit"
    ensures var (t1, o1) := Step(t, Some(first), v, tools);
            o1.Say? ==> Step(t1, Some(second), NoResult, tools2) == (t1, o1)
  {
  }

  /** The intended loop never crashes or repeats itself on a classifier failure, and it agrees
      with the loop as written on every other verdict. */
  lemma IntendedStepIsQuiet(t: Tutor, heard: Option<string>, verdict: Verdict, tools: Tools)
    ensures verdict.NoResult? ==> StepIntended(t, heard, verdict, tools) == (t, Silent)
    ensures verdict.NoResult? ==> Spoken(StepIntended(t, heard, verdict, tools).1) == None
    ensures !verdict.NoResult? ==> StepIntended(t, heard, verdict, tools) == Step(t, heard, verdict, tools)
  {
  }

  // -----------------------------------------------------------------------------------------------
  // Many turns

  datatype Utterance = Utterance(heard: Option<string>, verdict: Verdict, tools: Tools)

  /** Which loop a run takes: the one in `main.py`, or the corrected one that skips a classifier
      failure. */
  datatype Loop = AsWritten | Corrected

  function Turn(loop: Loop, t: Tutor, u: Utterance): (Tutor, Output) {
    match loop
    case AsWritten => Step(t, u.heard, u.verdict, u.tools)
    case Corrected => StepIntended(t, u.heard, u.verdict, u.tools)
  }

  /** The loop over a sequence of utterances. A crash or quit stops the loop; since a stopped
      tutor ignores every later utterance, the rest of the sequence then changes nothing. */
  function Run(loop: Loop, t: Tutor, us: seq<Utterance>): Tutor
    decreases |us|
  {
    if us == [] then t else Run(loop, Turn(loop, t, us[0]).0, us[1..])
  }

  /** The exchange a turn adds to memory, if it adds one. */
  function Added(t: Tutor, u: Utterance): Option<Exchange<Option<string>>> {
    if t.running && Heard(u.heard) && u.verdict.Intent? && !Special(u.verdict)
    then Some(Exchange(u.heard.value, MathRequest(t, u.heard.value, u.tools)))
    else None
  }

  /** The exchanges a run adds to memory, in order. */
  function AddedAll(loop: Loop, t: Tutor, us: seq<Utterance>): seq<Exchange<Option<string>>>
    decreases |us|
  {
    if us == [] then []
    else
      var rest := AddedAll(loop, Turn(loop, t, us[0]).0, us[1..]);
      match Added(t, us[0])
      case Some(e) => [e] + rest
      case None => rest
  }

  /** Either loop remembers exactly the exchange `Added` names, and nothing on any other turn. */
  lemma StepAdds(loop: Loop, t: Tutor, u: Utterance)
    ensures var t' := Turn(loop, t, u).0;
            match Added(t, u)
            case Some(e) => t'.context == Remember(t.context, e)
            case None => t'.context == t.context
  {
  }

  lemma {:induction false} RunRemembers(loop: Loop, t: Tutor, us: seq<Utterance>)
    ensures Run(loop, t, us).context == RememberAll(t.context, AddedAll(loop, t, us))
    decreases |us|
  {
    if us != [] {
      var t' := Turn(loop, t, us[0]).0;
      RunRemembers(loop, t', us[1..]);
      StepAdds(loop, t, us[0]);
      match Added(t, us[0])
      case Some(e) =>
        assert ([e] + AddedAll(loop, t', us[1..]))[1..] == AddedAll(loop, t', us[1..]);
      case None =>
    }
  }

  /** From a fresh start, memory is always the last three remembered exchanges, in order, for the
      loop as written and for the corrected one. */
  lemma ContextIsLastThree(loop: Loop, us: seq<Utterance>)
    ensures Run(loop, Fresh(), us).context == LastN(AddedAll(loop, Fresh(), us), CAPACITY)
    ensures Valid(Run(loop, Fresh(), us))
  {
    RunRemembers(loop, Fresh(), us);
    WindowIsLastThree(AddedAll(loop, Fresh(), us));
  }

  /** A stopped loop stays stopped and remembers nothing more. */
  lemma {:induction false} StoppedStaysStopped(loop: Loop, t: Tutor, us: seq<Utterance>)
    requires !t.running
    ensures Run(loop, t, us) == t
    ensures AddedAll(loop, t, us) == []
    decreases |us|
  {
    if us != [] {
      assert Turn(loop, t, us[0]).0 == t;
      StoppedStaysStopped(loop, t, us[1..]);
    }
  }

  /** The loop as written ends at a first utterance the classifier does not recognise: whatever
      is said afterwards, nothing is remembered. The corrected loop goes on as if that utterance
      had not been heard. */
  lemma FirstFailureEndsRun(heard: string, tools: Tools, rest: seq<Utterance>)
    requires heard != ""
    ensures var us := [Utterance(Some(heard), NoResult, tools)] + rest;
            && !Run(AsWritten, Fresh(), us).running
            && Run(AsWritten, Fresh(), us).context == []
            && AddedAll(AsWritten, Fresh(), us) == []
            && Run(Corrected, Fresh(), us) == Run(Corrected, Fresh(), rest)
            && AddedAll(Corrected, Fresh(), us) == AddedAll(Corrected, Fresh(), rest)
  {
    var us := [Utterance(Some(heard), NoResult, tools)] + rest;
    assert us[1..] == rest;
    StoppedStaysStopped(AsWritten, Fresh().(running := false), rest);
  }
}
