/** The agent loop as it runs: a while loop over LLM calls, tool calls on a disk, and events
    stamped by a clock. Every method is proved to carry out its plan from module Plan. */
module Loop {
  import opened Options
  import opened Events
  import opened Tools
  import opened Plan
  import Pricing

  method BuildAssistantMessage(resp: Response) returns (m: Message)
    ensures m == AssistantMessage(resp)
  {
    var content: seq<Block> := [];
    for i := 0 to |resp.texts|
      invariant content == seq(i, k requires 0 <= k < i => TextBlock(resp.texts[k]))
    {
      content := content + [TextBlock(resp.texts[i])];
    }
    ghost var texts := content;
    for i := 0 to |resp.toolUses|
      invariant content == texts + seq(i, k requires 0 <= k < i =>
        ToolUseBlock(resp.toolUses[k].id, resp.toolUses[k].name, resp.toolUses[k].input))
    {
      var use := resp.toolUses[i];
      content := content + [ToolUseBlock(use.id, use.name, use.input)];
    }
    m := Assistant(content);
  }

  /** Runs an available tool between two clock readings. Exceptions of the tool become an error
      result; if the clock raised inside the tool, it raises again at the second reading. */
  method RunKnownTool(env: Env, use: ToolUse, disk: Disk, events: EventWriter) returns (r: Outcome<ResultBlock>)
    modifies disk, events, events.clock
    ensures var e := Call(env.host, use.name, use.input, old(disk.files));
            var (end, result) := Answer(use, e.outcome);
            && events.View(disk.files, r.Raises?) ==
                 Exec1(old(events.View(disk.files, false)), Timed(e.files, e.mutation, end))
            && (r.Returns? ==> r.value == result && disk.files == if e.files.Some? then e.files.value else old(disk.files))
  {
    hide Call;
    var t0 :- events.ReadNs();
    var outcome, halted := RunTool(env.host, disk, events, use.name, use.input);
    var t1 :- events.ReadNs();
    var end, result;
    match outcome {
      case Raises(kind, message) =>
        var text := "Tool " + use.name + " raised " + kind + ": " + message;
        end := ToolEnd(use.id, text, false, 1, Latency(t0, t1));
        result := ResultBlock(use.id, text, true);
      case Returns(value) =>
        end := ToolEnd(use.id, value.content, value.truncated, value.exitCode, Latency(t0, t1));
        result := ResultBlock(use.id, value.content, value.isError);
    }
    var _ :- events.Emit(end);
    return Returns(result);
  }

  /** _run_one_tool: only the clock can raise. */
  method RunOneTool(t: Task, env: Env, use: ToolUse, disk: Disk, events: EventWriter)
    returns (r: Outcome<ResultBlock>)
    modifies disk, events, events.clock
    ensures var p := OneTool(t, env, use, old(disk.files));
            && events.View(disk.files, r.Raises?) == Exec(old(events.View(disk.files, false)), p.actions)
            && (r.Returns? ==> r.value == p.result && disk.files == p.files)
  {
    hide Exec, Exec1, Known, Call, Answer, OneTool;
    OneToolExec(t, env, use, disk.files, events.View(disk.files, false));
    var _ :- events.Emit(ToolStart(use.name, use.input, use.id));
    if use.name !in Known(t.tools) {
      var t0 :- events.ReadNs();
      var text := "Tool not available: " + use.name;
      var _ :- events.Emit(ToolEnd(use.id, text, false, 127, 0));
      return Returns(ResultBlock(use.id, text, true));
    }
    r := RunKnownTool(env, use, disk, events);
  }

  /** All tool uses of one answer, in order. */
  method RunTools(t: Task, env: Env, uses: seq<ToolUse>, disk: Disk, events: EventWriter)
    returns (r: Outcome<seq<ResultBlock>>)
    modifies disk, events, events.clock
    ensures var p := AllTools(t, env, uses, old(disk.files));
            && events.View(disk.files, r.Raises?) == Exec(old(events.View(disk.files, false)), p.actions)
            && (r.Returns? ==> r.value == p.results && disk.files == p.files)
  {
    var results: seq<ResultBlock> := [];
    ghost var p := AllTools(t, env, uses, disk.files);
    hide OneTool, Exec1;
    assert uses[0..] == uses;
    for i := 0 to |uses|
      invariant Exec(events.View(disk.files, false), AllTools(t, env, uses[i..], disk.files).actions)
                == Exec(old(events.View(disk.files, false)), p.actions)
      invariant results + AllTools(t, env, uses[i..], disk.files).results == p.results
      invariant AllTools(t, env, uses[i..], disk.files).files == p.files
    {
      AllToolsExec(t, env, uses[i..], disk.files, events.View(disk.files, false));
      assert uses[i..][1..] == uses[i + 1..];
      var one :- RunOneTool(t, env, uses[i], disk, events);
      results := results + [one];
    }
    return Returns(results);
  }

  /** The LLM call between its two readings, and the event that reports it. */
  method Ask(t: Task, env: Env, s: Loop, events: EventWriter, ghost files: Workspace)
    returns (r: Outcome<Outcome<Response>>)
    modifies events, events.clock
    ensures match env.client(s.step, RequestOf(t, s.messages))
            case Raises(kind, message) =>
              && events.View(files, r.Raises?) == Exec1(old(events.View(files, false)), Peek)
              && (r.Returns? ==> r.value == Raises(kind, message))
            case Returns(resp) =>
              && events.View(files, r.Raises?) ==
                   Exec1(old(events.View(files, false)), Timed(None, None, AnswerEvent(t, env, s, resp)))
              && (r.Returns? ==> r.value == Returns(resp))
  {
    hide Pricing.Cost, Pricing.Micros, RequestOf;
    var t0 :- events.ReadNs();
    var answer := env.client(s.step, RequestOf(t, s.messages));
    if answer.Raises? {
      return Returns(answer);
    }
    var resp := answer.value;
    var t1 :- events.ReadNs();
    var _ :- events.Emit(WithLatency(AnswerEvent(t, env, s, resp), Latency(t0, t1)));
    return Returns(answer);
  }

  /** From agent_step_start to the reported LLM call. */
  method OpenTurn(t: Task, env: Env, s: Loop, events: EventWriter, ghost files: Workspace)
    returns (r: Outcome<Outcome<Response>>)
    modifies events, events.clock
    ensures events.View(files, r.Raises?) == Asked(t, env, s, old(events.View(files, false)))
    ensures r.Returns? ==> r.value == env.client(s.step, RequestOf(t, s.messages))
  {
    hide AnswerEvent, RequestOf;
    events.SetStep(s.step);
    var _ :- events.Emit(StepStart(s.step));
    var hash := env.hashRequest(RequestOf(t, s.messages));
    var _ :- events.Emit(LlmStart(t.provider, t.model, hash, |s.messages|, t.params));
    r := Ask(t, env, s, events, files);
  }

  /** After an answer: the tools if the model wants any, and agent_step_end. */
  method CloseTurn(t: Task, env: Env, s: Loop, resp: Response, disk: Disk, events: EventWriter)
    returns (r: Outcome<Signal>, next: Loop)
    requires s.files == disk.files && env.client(s.step, RequestOf(t, s.messages)) == Returns(resp)
    modifies disk, events, events.clock
    ensures events.View(disk.files, r.Raises?) == Exec(old(events.View(disk.files, false)), AfterAsk(t, env, s))
    ensures r.Returns? ==>
              r.value == OneTurn(t, env, s).signal && next == OneTurn(t, env, s).next && next.files == disk.files
  {
    hide Exec, AllTools, AnswerEvent, AssistantMessage, Pricing.Cost, Append, RequestOf;
    var message := BuildAssistantMessage(resp);
    var cost := Pricing.Cost(t.model, resp.inputTokens, resp.outputTokens);
    next := s.(tokensIn := s.tokensIn + resp.inputTokens, tokensOut := s.tokensOut + resp.outputTokens,
               cost := s.cost + cost, messages := s.messages + [message]);
    assert next == Charged(t, s, resp);
    if resp.stopReason == "tool_use" && resp.toolUses != [] {
      ExecSnoc(events.View(disk.files, false), AllTools(t, env, resp.toolUses, disk.files).actions, Emit(StepEnd(s.step)));
      var results :- RunTools(t, env, resp.toolUses, disk, events);
      next := next.(messages := next.messages + [Results(results)], files := disk.files);
      var _ :- events.Emit(StepEnd(s.step));
      next := next.(step := s.step + 1);
      return Returns(Continue), next;
    }
    assert AfterAsk(t, env, s) == [Emit(StepEnd(s.step))];
    ExecOne(events.View(disk.files, false), Emit(StepEnd(s.step)));
    var _ :- events.Emit(StepEnd(s.step));
    next := next.(step := s.step + 1);
    var outcome := "completed";
    if resp.stopReason == "max_tokens" || resp.stopReason == "error" {
      outcome := "failed";
    }
    return Returns(Finish(outcome)), next;
  }

  /** The body of the while loop. */
  method RunTurn(t: Task, env: Env, s: Loop, disk: Disk, events: EventWriter)
    returns (r: Outcome<Signal>, next: Loop)
    requires s.files == disk.files
    modifies disk, events, events.clock
    ensures var turn := OneTurn(t, env, s);
            && events.View(disk.files, r.Raises?) == Exec(old(events.View(disk.files, false)), turn.actions)
            && (r.Returns? ==> r.value == turn.signal && next == turn.next && next.files == disk.files)
            && (r.Raises? ==> !Readable(events.clock.state))
  {
    next := s;
    TurnExec(t, env, s, events.View(disk.files, false));
    HaltMeansExhausted(events.View(disk.files, false), OneTurn(t, env, s).actions);
    hide Asked, AllTools, AnswerEvent, RequestOf, Opening, Charged, Exec1;
    var answer :- OpenTurn(t, env, s, events, disk.files);
    if answer.Raises? {
      return Returns(Crash(answer.kind, answer.message)), s;
    }
    hide Exec, AfterAsk, OneTurn;
    r, next := CloseTurn(t, env, s, answer.value, disk, events);
  }

  /** run: the task-level bracket around the while loop. An exception of the client is logged as
      agent_error; agent_done is always tried; what the clock raises escapes. */
  method Run(t: Task, env: Env, disk: Disk, events: EventWriter) returns (r: Outcome<Body>)
    modifies disk, events, events.clock
    ensures events.View(disk.files, r.Raises?) ==
              Exec(old(events.View(disk.files, false)), Whole(t, env, old(disk.files)))
    ensures r.Returns? ==> events.log != [] && events.log[|events.log| - 1].body == r.value
  {
    ghost var total := Exec(events.View(disk.files, false), Whole(t, env, disk.files));
    WholeExec(t, env, disk.files, events.View(disk.files, false));
    hide Exec, From, OneTurn;
    events.SetStep(0);
    var _ :- events.Emit(StartEvent(t));
    var s := Start(t, disk.files);
    var outcome, crash := "max_steps", None;
    var running := true;
    ghost var broken := false;
    while running && s.step < MaxSteps(t)
      invariant running ==> s.files == disk.files && crash == None && outcome == "max_steps" && !broken
      invariant if broken then events.View(disk.files, true) == total && !Readable(events.clock.state) && crash.Some?
                else Exec(events.View(disk.files, false), Remaining(t, env, s, running, outcome, crash)) == total
      decreases running, MaxSteps(t) - s.step
    {
      FromExec(t, env, s, events.View(disk.files, false));
      var signal, next := RunTurn(t, env, s, disk, events);
      match signal {
        case Returns(Continue) => s := next;
        case Returns(Finish(o)) => s, outcome, running := next, o, false;
        case Returns(Crash(kind, message)) => crash, outcome, running := Some((kind, message)), "failed", false;
        case Raises(kind, message) => crash, outcome, running, broken := Some((kind, message)), "failed", false, true;
      }
    }
    var done := DoneEvent(s, outcome);
    LastExec(events.View(disk.files, false), t, env, s, running, outcome, crash);
    if crash.Some? {
      var _ :- events.Emit(AgentError(crash.value.0, crash.value.1));
    }
    var _ :- events.Emit(done);
    return Returns(done);
  }

  /** The closing events, after the loop. */
  lemma LastExec(w: World, t: Task, env: Env, s: Loop, running: bool, outcome: string, crash: Option<(string, string)>)
    requires running ==> s.step >= MaxSteps(t) && outcome == "max_steps" && crash == None
    ensures var w1 := if crash.Some? then Append(w, AgentError(crash.value.0, crash.value.1)) else w;
            Exec(w, Remaining(t, env, s, running, outcome, crash)) == Append(w1, DoneEvent(s, outcome))
  {
    var done := Emit(DoneEvent(s, outcome));
    ExecOne(w, done);
    if crash.Some? {
      ExecTwo(w, Emit(AgentError(crash.value.0, crash.value.1)), done);
    }
    hide Append, DoneEvent;
  }
}
