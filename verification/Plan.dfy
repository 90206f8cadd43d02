/** The agent loop without its clock. A run is a list of actions that depends on the task, the
    model's answers and the tools only; the clock enters when the actions are carried out. */
module Plan {
  import opened Options
  import opened Events
  import opened Tools
  import Pricing

  // ---- Conversations ----

  datatype ToolUse = ToolUse(id: string, name: string, input: map<string, Arg>)
  datatype Response = Response(texts: seq<string>, toolUses: seq<ToolUse>, stopReason: string,
                               inputTokens: int, outputTokens: int)

  datatype Block = TextBlock(text: string) | ToolUseBlock(id: string, name: string, input: map<string, Arg>)
  datatype ResultBlock = ResultBlock(toolUseId: string, content: string, isError: bool)
  datatype Message = Prompt(text: string) | Assistant(blocks: seq<Block>) | Results(results: seq<ResultBlock>)

  /** What one LLM call sends; tools are given by name. */
  datatype Request = Request(system: string, messages: seq<Message>, tools: seq<string>, params: map<string, string>)

  /** _build_assistant_message: the text blocks, then the tool uses. */
  function AssistantMessage(resp: Response): Message {
    Assistant(seq(|resp.texts|, i requires 0 <= i < |resp.texts| => TextBlock(resp.texts[i])) +
              seq(|resp.toolUses|, i requires 0 <= i < |resp.toolUses| =>
                ToolUseBlock(resp.toolUses[i].id, resp.toolUses[i].name, resp.toolUses[i].input)))
  }

  // ---- Tasks and their surroundings ----

  datatype Task = Task(id: string, prompt: string, system: string, provider: string, model: string,
                       params: map<string, string>, tools: seq<string>, maxSteps: Option<int>)

  /** The deterministic surroundings of a run: the model answers by call number and request. */
  datatype Env = Env(client: (nat, Request) -> Outcome<Response>, host: Host,
                     hashRequest: Request -> string, hashResponse: Response -> string)

  const REGISTRY: set<string> := {"bash", "file_read", "file_write", "file_edit", "web_search"}
  const DEFAULT_MAX_STEPS := 25

  /** build_tools: the requested tools that exist, in order. */
  function Known(names: seq<string>): seq<string> {
    if names == [] then []
    else (if names[0] in REGISTRY then [names[0]] else []) + Known(names[1..])
  }

  function MaxSteps(t: Task): int {
    if t.maxSteps.Some? then t.maxSteps.value else DEFAULT_MAX_STEPS
  }

  // ---- Actions ----

  /** `Timed` reads the clock, performs a tool's effect, reads the clock again and logs `end` with
      the elapsed time; `Peek` is a reading whose value is not used. */
  datatype Action =
    | SetStep(k: int)
    | Emit(body: Body)
    | Peek
    | Timed(files: Option<Workspace>, mutation: Option<Body>, end: Body)

  /** The value of a clock reading, where there is one. */
  function Reading(w: World): int {
    if !w.halted && Readable(w.clock) then NsOf(w.clock) else 0
  }

  function Exec1(w: World, a: Action): World {
    match a
    case SetStep(k) => if w.halted then w else w.(step := k)
    case Emit(b) => Append(w, b)
    case Peek => Read(w)
    case Timed(files, mutation, end) =>
      var w1 := Performed(Read(w), files, mutation);
      Append(Read(w1), WithLatency(end, Latency(Reading(w), Reading(w1))))
  }

  function Exec(w: World, actions: seq<Action>): World
    decreases actions
  {
    if actions == [] then w else Exec(Exec1(w, actions[0]), actions[1..])
  }

  lemma {:induction false} ExecConcat(w: World, a: seq<Action>, b: seq<Action>)
    ensures Exec(w, a + b) == Exec(Exec(w, a), b)
    decreases a
  {
    if a == [] {
      assert a + b == b;
    } else {
      assert (a + b)[1..] == a[1..] + b;
      ExecConcat(Exec1(w, a[0]), a[1..], b);
    }
  }

  lemma ExecOne(w: World, a: Action)
    ensures Exec(w, [a]) == Exec1(w, a)
  {
    assert [a][1..] == [];
    assert Exec(w, [a]) == Exec(Exec1(w, a), []);
  }

  lemma ExecTwo(w: World, a: Action, b: Action)
    ensures Exec(w, [a, b]) == Exec1(Exec1(w, a), b)
  {
    assert [a, b][1..] == [b];
    ExecOne(Exec1(w, a), b);
  }

  lemma {:induction false} HaltedStays(w: World, actions: seq<Action>)
    requires w.halted
    ensures Exec(w, actions) == w
    decreases actions
  {
    if actions != [] {
      HaltedStays(w, actions[1..]);
    }
  }

  // ---- One tool call ----

  datatype ToolPlan = ToolPlan(actions: seq<Action>, result: ResultBlock, files: Workspace)

  /** The closing event and the result block for what a tool answered or raised. */
  function Answer(use: ToolUse, outcome: Outcome<ToolResult>): (Body, ResultBlock) {
    match outcome
    case Raises(kind, message) =>
      var text := "Tool " + use.name + " raised " + kind + ": " + message;
      (ToolEnd(use.id, text, false, 1, 0), ResultBlock(use.id, text, true))
    case Returns(r) =>
      (ToolEnd(use.id, r.content, r.truncated, r.exitCode, 0), ResultBlock(use.id, r.content, r.isError))
  }

  function OneTool(t: Task, env: Env, use: ToolUse, files: Workspace): ToolPlan {
    var begin := Emit(ToolStart(use.name, use.input, use.id));
    if use.name !in Known(t.tools) then
      var text := "Tool not available: " + use.name;
      ToolPlan([begin, Peek, Emit(ToolEnd(use.id, text, false, 127, 0))], ResultBlock(use.id, text, true), files)
    else
      var e := Call(env.host, use.name, use.input, files);
      var (end, result) := Answer(use, e.outcome);
      ToolPlan([begin, Timed(e.files, e.mutation, end)], result, if e.files.Some? then e.files.value else files)
  }

  /** The steps of one tool call, carried out. */
  lemma OneToolExec(t: Task, env: Env, use: ToolUse, files: Workspace, w: World)
    ensures var p := OneTool(t, env, use, files);
            var w1 := Append(w, ToolStart(use.name, use.input, use.id));
            && (w1.halted ==> Exec(w, p.actions) == w1)
            && if use.name !in Known(t.tools) then
                 var text := "Tool not available: " + use.name;
                 && Exec(w, p.actions) == Append(Read(w1), ToolEnd(use.id, text, false, 127, 0))
                 && p.result == ResultBlock(use.id, text, true) && p.files == files
               else
                 var e := Call(env.host, use.name, use.input, files);
                 && Exec(w, p.actions) == Exec1(w1, Timed(e.files, e.mutation, Answer(use, e.outcome).0))
                 && p.result == Answer(use, e.outcome).1
                 && p.files == if e.files.Some? then e.files.value else files
  {
    hide Call, Known, Answer, Append, Exec;
    var p := OneTool(t, env, use, files);
    var w1, rest := Append(w, ToolStart(use.name, use.input, use.id)), p.actions[1..];
    assert p.actions == [p.actions[0]] + rest;
    ExecConcat(w, [p.actions[0]], rest);
    ExecOne(w, p.actions[0]);
    if w1.halted { HaltedStays(w1, rest); }
    if use.name !in Known(t.tools) {
      ExecTwo(w1, p.actions[1], p.actions[2]);
    } else {
      ExecOne(w1, p.actions[1]);
    }
  }

  datatype ToolsPlan = ToolsPlan(actions: seq<Action>, results: seq<ResultBlock>, files: Workspace)

  function AllTools(t: Task, env: Env, uses: seq<ToolUse>, files: Workspace): ToolsPlan
    decreases uses
  {
    if uses == [] then ToolsPlan([], [], files)
    else
      var first := OneTool(t, env, uses[0], files);
      var rest := AllTools(t, env, uses[1..], first.files);
      ToolsPlan(first.actions + rest.actions, [first.result] + rest.results, rest.files)
  }

  /** Carrying out the first tool call and then the rest. */
  lemma AllToolsExec(t: Task, env: Env, uses: seq<ToolUse>, files: Workspace, w: World)
    requires uses != []
    ensures var first := OneTool(t, env, uses[0], files);
            var rest := AllTools(t, env, uses[1..], first.files);
            && Exec(w, AllTools(t, env, uses, files).actions) == Exec(Exec(w, first.actions), rest.actions)
            && (Exec(w, first.actions).halted ==>
                  Exec(w, AllTools(t, env, uses, files).actions) == Exec(w, first.actions))
  {
    hide OneTool;
    var first := OneTool(t, env, uses[0], files);
    var rest := AllTools(t, env, uses[1..], first.files);
    ExecConcat(w, first.actions, rest.actions);
    if Exec(w, first.actions).halted { HaltedStays(Exec(w, first.actions), rest.actions); }
  }

  // ---- One turn of the loop ----

  /** The loop's variables. */
  datatype Loop = Loop(step: nat, messages: seq<Message>, files: Workspace, tokensIn: int, tokensOut: int, cost: int)

  datatype Signal = Continue | Finish(outcome: string) | Crash(kind: string, message: string)
  datatype Turn = Turn(actions: seq<Action>, next: Loop, signal: Signal)

  function RequestOf(t: Task, messages: seq<Message>): Request {
    Request(t.system, messages, Known(t.tools), t.params)
  }

  predicate Continues(resp: Response) {
    resp.stopReason == "tool_use" && resp.toolUses != []
  }

  function OutcomeOf(stopReason: string): string {
    if stopReason == "max_tokens" || stopReason == "error" then "failed" else "completed"
  }

  /** From agent_step_start to the reading before the LLM call. */
  function Opening(t: Task, env: Env, s: Loop): seq<Action> {
    [ SetStep(s.step),
      Emit(StepStart(s.step)),
      Emit(LlmStart(t.provider, t.model, env.hashRequest(RequestOf(t, s.messages)), |s.messages|, t.params)) ]
  }

  function Charged(t: Task, s: Loop, resp: Response): Loop {
    s.(tokensIn := s.tokensIn + resp.inputTokens, tokensOut := s.tokensOut + resp.outputTokens,
       cost := s.cost + Pricing.Cost(t.model, resp.inputTokens, resp.outputTokens),
       messages := s.messages + [AssistantMessage(resp)])
  }

  function AnswerEvent(t: Task, env: Env, s: Loop, resp: Response): Body {
    LlmEnd(env.hashRequest(RequestOf(t, s.messages)), env.hashResponse(resp), resp.inputTokens, resp.outputTokens,
           resp.stopReason, Pricing.Micros(Pricing.Cost(t.model, resp.inputTokens, resp.outputTokens)), 0)
  }

  function OneTurn(t: Task, env: Env, s: Loop): Turn {
    match env.client(s.step, RequestOf(t, s.messages))
    case Raises(kind, message) => Turn(Opening(t, env, s) + [Peek], s, Crash(kind, message))
    case Returns(resp) =>
      var asked := Opening(t, env, s) + [Timed(None, None, AnswerEvent(t, env, s, resp))];
      var s1 := Charged(t, s, resp);
      if Continues(resp) then
        var tools := AllTools(t, env, resp.toolUses, s.files);
        Turn(asked + tools.actions + [Emit(StepEnd(s.step))],
             s1.(step := s.step + 1, messages := s1.messages + [Results(tools.results)], files := tools.files), Continue)
      else
        Turn(asked + [Emit(StepEnd(s.step))], s1.(step := s.step + 1), Finish(OutcomeOf(resp.stopReason)))
  }

  // ---- The whole run ----

  function DoneEvent(s: Loop, outcome: string): Body {
    AgentDone(outcome, s.step, Pricing.Micros(s.cost), s.tokensIn, s.tokensOut)
  }

  /** Everything the loop does from the given variables on. */
  function From(t: Task, env: Env, s: Loop): seq<Action>
    decreases MaxSteps(t) - s.step
  {
    if s.step >= MaxSteps(t) then [Emit(DoneEvent(s, "max_steps"))]
    else
      var turn := OneTurn(t, env, s);
      match turn.signal
      case Continue => turn.actions + From(t, env, turn.next)
      case Finish(outcome) => turn.actions + [Emit(DoneEvent(turn.next, outcome))]
      case Crash(kind, message) => turn.actions + [Emit(AgentError(kind, message)), Emit(DoneEvent(s, "failed"))]
  }

  function Start(t: Task, files: Workspace): Loop {
    Loop(0, [Prompt(t.prompt)], files, 0, 0, 0)
  }

  function StartEvent(t: Task): Body {
    AgentStart(t.id, t.prompt, t.provider, t.model, Known(t.tools), MaxSteps(t))
  }

  function Whole(t: Task, env: Env, files: Workspace): seq<Action> {
    [SetStep(0), Emit(StartEvent(t))] + From(t, env, Start(t, files))
  }

  /** A fresh writer over the given clock and workspace. */
  function Fresh(clock: Clock, files: Workspace): World {
    World(clock, 0, [], files, false)
  }

  // ---- Carrying out a turn, piece by piece ----

  /** The first action and then the rest; nothing happens after a halt. */
  lemma ExecCons(w: World, a: Action, rest: seq<Action>)
    ensures Exec(w, [a] + rest) == Exec(Exec1(w, a), rest)
    ensures Exec1(w, a).halted ==> Exec(w, [a] + rest) == Exec1(w, a)
  {
    ExecConcat(w, [a], rest);
    ExecOne(w, a);
    hide Exec1;
    if Exec1(w, a).halted { HaltedStays(Exec1(w, a), rest); }
  }

  /** A stretch of actions and then one more. */
  lemma ExecSnoc(w: World, some: seq<Action>, b: Action)
    ensures Exec(w, some + [b]) == Exec1(Exec(w, some), b)
    ensures Exec(w, some).halted ==> Exec(w, some + [b]) == Exec(w, some)
  {
    ExecConcat(w, some, [b]);
    ExecOne(Exec(w, some), b);
    if Exec(w, some).halted { HaltedStays(Exec(w, some), [b]); }
  }

  /** The action around the LLM call. */
  function AskAction(t: Task, env: Env, s: Loop): Action {
    match env.client(s.step, RequestOf(t, s.messages))
    case Raises(_, _) => Peek
    case Returns(resp) => Timed(None, None, AnswerEvent(t, env, s, resp))
  }

  /** What follows the LLM call in its turn. */
  function AfterAsk(t: Task, env: Env, s: Loop): seq<Action> {
    match env.client(s.step, RequestOf(t, s.messages))
    case Raises(_, _) => []
    case Returns(resp) =>
      (if Continues(resp) then AllTools(t, env, resp.toolUses, s.files).actions else []) + [Emit(StepEnd(s.step))]
  }

  /** After the LLM call has been made and reported. */
  function Asked(t: Task, env: Env, s: Loop, w: World): World {
    var o := Opening(t, env, s);
    Exec1(Append(Append(w.(step := s.step), o[1].body), o[2].body), AskAction(t, env, s))
  }

  lemma TurnExec(t: Task, env: Env, s: Loop, w: World)
    requires !w.halted
    ensures var w3 := Asked(t, env, s, w);
            && Exec(w, OneTurn(t, env, s).actions) == Exec(w3, AfterAsk(t, env, s))
            && (w3.halted ==> Exec(w, OneTurn(t, env, s).actions) == w3)
  {
    hide AllTools, Exec, AnswerEvent;
    var o, ask, after := Opening(t, env, s), AskAction(t, env, s), AfterAsk(t, env, s);
    var actions := OneTurn(t, env, s).actions;
    assert actions == [o[0]] + ([o[1]] + ([o[2]] + ([ask] + after)));
    ExecCons(w, o[0], [o[1]] + ([o[2]] + ([ask] + after)));
    var w1 := Exec1(w.(step := s.step), o[1]);
    ExecCons(w.(step := s.step), o[1], [o[2]] + ([ask] + after));
    ExecCons(w1, o[2], [ask] + after);
    ExecCons(Exec1(w1, o[2]), ask, after);
  }

  // ---- Carrying out a run, turn by turn ----

  /** What is left to do, given where the loop stands. */
  function Remaining(t: Task, env: Env, s: Loop, running: bool, outcome: string, crash: Option<(string, string)>): seq<Action> {
    if running then From(t, env, s)
    else if crash.Some? then [Emit(AgentError(crash.value.0, crash.value.1)), Emit(DoneEvent(s, outcome))]
    else [Emit(DoneEvent(s, outcome))]
  }

  lemma WholeExec(t: Task, env: Env, files: Workspace, w: World)
    requires !w.halted
    ensures var w1 := Append(w.(step := 0), StartEvent(t));
            && Exec(w, Whole(t, env, files)) == Exec(w1, From(t, env, Start(t, files)))
            && (w1.halted ==> Exec(w, Whole(t, env, files)) == w1)
  {
    hide From, StartEvent, Append;
    var rest := From(t, env, Start(t, files));
    assert Whole(t, env, files) == [SetStep(0)] + ([Emit(StartEvent(t))] + rest);
    ExecCons(w, SetStep(0), [Emit(StartEvent(t))] + rest);
    ExecCons(w.(step := 0), Emit(StartEvent(t)), rest);
  }

  lemma FromExec(t: Task, env: Env, s: Loop, w: World)
    requires s.step < MaxSteps(t)
    ensures var turn := OneTurn(t, env, s);
            var w1 := Exec(w, turn.actions);
            && (w1.halted ==> Exec(w, From(t, env, s)) == w1)
            && match turn.signal
               case Continue => Exec(w, From(t, env, s)) == Exec(w1, From(t, env, turn.next))
               case Finish(o) => Exec(w, From(t, env, s)) == Exec(w1, [Emit(DoneEvent(turn.next, o))])
               case Crash(kind, message) =>
                 Exec(w, From(t, env, s)) == Exec(w1, [Emit(AgentError(kind, message)), Emit(DoneEvent(s, "failed"))])
  {
    var turn := OneTurn(t, env, s);
    hide OneTurn, DoneEvent;
    var rest := match turn.signal
      case Continue => From(t, env, turn.next)
      case Finish(o) => [Emit(DoneEvent(turn.next, o))]
      case Crash(kind, message) => [Emit(AgentError(kind, message)), Emit(DoneEvent(s, "failed"))];
    assert From(t, env, s) == turn.actions + rest;
    ExecConcat(w, turn.actions, rest);
    hide Exec;
    if Exec(w, turn.actions).halted { HaltedStays(Exec(w, turn.actions), rest); }
  }

  /** A run only halts on an exhausted clock, and the clock stays exhausted. */
  lemma {:induction false} HaltMeansExhausted(w: World, actions: seq<Action>)
    requires w.halted ==> !Readable(w.clock)
    ensures Exec(w, actions).halted ==> !Readable(Exec(w, actions).clock)
    decreases actions
  {
    if actions != [] {
      HaltMeansExhausted(Exec1(w, actions[0]), actions[1..]);
    }
  }
}
