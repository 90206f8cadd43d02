/** What a run tells, to the trace and to the model: every request, answer, tool call and tool
    result, in terms of the task, the model's answers and the tools themselves. */
module Telling {
  import opened Events
  import opened Tools
  import opened Plan
  import opened Trace
  import Acceptance
  import Pricing

  // ---- The tools of a task ----

  predicate Available(t: Task, tool: string) {
    tool in t.tools && tool in {"bash", "file_read", "file_write", "file_edit", "web_search"}
  }

  /** The tools a request offers: those the task names that exist, in the task's order. */
  function Offered(names: seq<string>): seq<string> {
    if names == [] then []
    else
      var last := names[|names| - 1];
      Offered(names[..|names| - 1]) +
        if last in {"bash", "file_read", "file_write", "file_edit", "web_search"} then [last] else []
  }

  lemma {:induction false} KnownSnoc(names: seq<string>, last: string)
    ensures Known(names + [last]) == Known(names) + if last in REGISTRY then [last] else []
  {
    if names == [] {
      assert names + [last] == [last] && [last][1..] == [];
      assert Known([]) == [];
    } else {
      var first := if names[0] in REGISTRY then [names[0]] else [];
      assert (names + [last])[0] == names[0] && (names + [last])[1..] == names[1..] + [last];
      KnownSnoc(names[1..], last);
      assert Known(names + [last]) == first + (Known(names[1..]) + if last in REGISTRY then [last] else []);
      assert Known(names) == first + Known(names[1..]);
    }
  }

  lemma {:induction false} KnownIsOffered(names: seq<string>)
    ensures Known(names) == Offered(names)
    ensures forall n :: n in Known(names) <==> n in names && n in REGISTRY
  {
    if names != [] {
      var front, last := names[..|names| - 1], names[|names| - 1];
      assert names == front + [last];
      KnownIsOffered(front);
      KnownSnoc(front, last);
    }
  }

  lemma KnownIsAvailable(t: Task, tool: string)
    ensures tool in Known(t.tools) <==> Available(t, tool)
  {
    KnownIsOffered(t.tools);
  }

  /** The request of one LLM call: system prompt, history, tools and parameters. */
  function RequestFor(t: Task, messages: seq<Message>): Request {
    Request(t.system, messages, Offered(t.tools), t.params)
  }

  lemma RequestIsRequestFor(t: Task, messages: seq<Message>)
    ensures RequestOf(t, messages) == RequestFor(t, messages)
  {
    KnownIsOffered(t.tools);
  }

  // ---- Tool calls ----

  predicate IsToolStart(b: Body) { b.ToolStart? }
  predicate IsToolEnd(b: Body) { b.ToolEnd? }

  /** The bodies of one kind, in order. */
  function Pick(notes: seq<Note>, p: Body -> bool): seq<Body> {
    if notes == [] then [] else (if p(notes[0].body) then [notes[0].body] else []) + Pick(notes[1..], p)
  }

  lemma {:induction false} PickConcat(a: seq<Note>, b: seq<Note>, p: Body -> bool)
    ensures Pick(a + b, p) == Pick(a, p) + Pick(b, p)
  {
    if a == [] {
      assert a + b == b;
    } else {
      var first := if p(a[0].body) then [a[0].body] else [];
      assert (a + b)[0] == a[0] && (a + b)[1..] == a[1..] + b;
      PickConcat(a[1..], b, p);
      assert Pick(a + b, p) == first + (Pick(a[1..], p) + Pick(b, p));
      assert Pick(a, p) == first + Pick(a[1..], p);
    }
  }

  lemma PickOne(n: Note, p: Body -> bool)
    ensures Pick([n], p) == if p(n.body) then [n.body] else []
  {
    assert [n][1..] == [];
    assert Pick([n], p) == (if p(n.body) then [n.body] else []) + Pick([], p);
  }

  /** What tool_call_end and the result block say about one call: the same content under the same id,
      and the answer of the tool, the text of its exception, or that there is no such tool. */
  predicate Told(use: ToolUse, available: bool, outcome: Outcome<ToolResult>, end: Body, result: ResultBlock) {
    && end.ToolEnd? && end.callId == use.id == result.toolUseId && end.result == result.content
    && if !available then
         result.content == "Tool not available: " + use.name && end.exitCode == 127 && !end.truncated && result.isError
       else
         match outcome
         case Returns(r) =>
           && result.content == r.content && result.isError == r.isError
           && end.exitCode == r.exitCode && end.truncated == r.truncated
         case Raises(kind, message) =>
           && result.content == "Tool " + use.name + " raised " + kind + ": " + message && result.isError
           && end.exitCode == 1 && !end.truncated
  }

  /** The workspace one tool use leaves. */
  function Leaves(t: Task, env: Env, use: ToolUse, found: Workspace): Workspace {
    var left := Call(env.host, use.name, use.input, found).files;
    if Available(t, use.name) && left.Some? then left.value else found
  }

  /** One tool use, run in the workspace `found`. */
  predicate ToldAt(t: Task, env: Env, use: ToolUse, found: Workspace, start: Body, end: Body, result: ResultBlock) {
    && start == ToolStart(use.name, use.input, use.id)
    && Told(use, Available(t, use.name), Call(env.host, use.name, use.input, found).outcome, end, result)
  }

  /** The tool uses of an answer, each run in the workspace the one before it left: one
      tool_call_start, one tool_call_end and one result block for each, in order. */
  predicate AllTold(t: Task, env: Env, uses: seq<ToolUse>, found: Workspace, starts: seq<Body>, ends: seq<Body>,
                    results: seq<ResultBlock>, left: Workspace)
    decreases uses
  {
    && |starts| == |ends| == |results| == |uses|
    && if uses == [] then left == found
       else
         && ToldAt(t, env, uses[0], found, starts[0], ends[0], results[0])
         && AllTold(t, env, uses[1..], Leaves(t, env, uses[0], found), starts[1..], ends[1..], results[1..], left)
  }

  /** The start and the end of a call are its only events of their kind. */
  lemma CallPicks(notes: seq<Note>, k: int, id: string)
    requires Acceptance.CallShape(notes, k, id)
    ensures Pick(notes, IsToolStart) == [notes[0].body]
    ensures Pick(notes, IsToolEnd) == [notes[|notes| - 1].body]
  {
    var n := |notes| - 1;
    var front, last := notes[..n], notes[n];
    assert notes == front + [last] && front == [notes[0]] + front[1..];
    hide Pick;
    if n == 2 { assert front[1..] == [notes[1]]; } else { assert front[1..] == [] && front == [notes[0]]; }
    PickTail(notes[0], front[1..], IsToolStart);
    PickTail(notes[0], front[1..], IsToolEnd);
    PickConcat(front, [last], IsToolStart);
    PickConcat(front, [last], IsToolEnd);
    PickOne(last, IsToolStart);
    PickOne(last, IsToolEnd);
  }

  /** One event, and perhaps a mutation. */
  lemma PickTail(n: Note, rest: seq<Note>, p: Body -> bool)
    requires rest == [] || (|rest| == 1 && !p(rest[0].body))
    ensures Pick([n] + rest, p) == if p(n.body) then [n.body] else []
  {
    PickConcat([n], rest, p);
    PickOne(n, p);
    if rest != [] { assert rest == [rest[0]]; PickOne(rest[0], p); }
  }

  /** The first and the last event of one tool call. */
  lemma OneToolEnds(t: Task, env: Env, use: ToolUse, files: Workspace, step: int)
    ensures var p, notes := OneTool(t, env, use, files), Notes(OneTool(t, env, use, files).actions, step);
            var e := Call(env.host, use.name, use.input, files);
            && notes != [] && notes[0].body == ToolStart(use.name, use.input, use.id)
            && Told(use, Available(t, use.name), e.outcome, notes[|notes| - 1].body, p.result)
            && p.files == Leaves(t, env, use, files)
  {
    KnownIsAvailable(t, use.name);
    hide Call, Known, Notes, LastStep, Available;
    var p := OneTool(t, env, use, files);
    var begin, rest, last := p.actions[0], p.actions[1..], p.actions[|p.actions| - 1];
    assert p.actions == [begin] + rest;
    NotesCons(begin, rest, step);
    if |rest| == 2 { assert rest == [Peek] + [last]; NotesCons(Peek, [last], step); } else { assert rest == [last]; }
    NotesOne(last, step);
  }

  lemma OneToolTold(t: Task, env: Env, use: ToolUse, files: Workspace, step: int)
    ensures var p, notes := OneTool(t, env, use, files), Notes(OneTool(t, env, use, files).actions, step);
            var starts, ends := Pick(notes, IsToolStart), Pick(notes, IsToolEnd);
            && |starts| == |ends| == 1 && ToldAt(t, env, use, files, starts[0], ends[0], p.result)
            && p.files == Leaves(t, env, use, files)
            && LastStep(p.actions, step) == step
  {
    var actions := OneTool(t, env, use, files).actions;
    OneToolEnds(t, env, use, files, step);
    Acceptance.OneToolActions(t, env, use, files);
    hide OneTool, Call, Notes, LastStep, Pick, Available, Told, Leaves, Acceptance.CallActions;
    Acceptance.CallNotes(actions, use.id, step);
    CallPicks(Notes(actions, step), step, use.id);
  }

  lemma {:induction false} ToolsTold(t: Task, env: Env, uses: seq<ToolUse>, files: Workspace, step: int)
    ensures var p, notes := AllTools(t, env, uses, files), Notes(AllTools(t, env, uses, files).actions, step);
            && AllTold(t, env, uses, files, Pick(notes, IsToolStart), Pick(notes, IsToolEnd), p.results, p.files)
            && LastStep(p.actions, step) == step
    decreases uses
  {
    if uses == [] {
      NotesNone(step);
    } else {
      hide OneTool, Notes, LastStep, Pick, ToldAt, Leaves;
      var first := OneTool(t, env, uses[0], files);
      var rest := AllTools(t, env, uses[1..], first.files);
      var before, after := Notes(first.actions, step), Notes(rest.actions, step);
      OneToolTold(t, env, uses[0], files, step);
      ToolsTold(t, env, uses[1..], first.files, step);
      NotesConcat(first.actions, rest.actions, step);
      PickConcat(before, after, IsToolStart);
      PickConcat(before, after, IsToolEnd);
      assert (Pick(before, IsToolStart) + Pick(after, IsToolStart))[1..] == Pick(after, IsToolStart);
      assert (Pick(before, IsToolEnd) + Pick(after, IsToolEnd))[1..] == Pick(after, IsToolEnd);
      assert ([first.result] + rest.results)[1..] == rest.results;
    }
  }

  // ---- Turns ----

  /** The assistant turn repeats the answer: its texts, then its tool uses. */
  predicate Repeats(resp: Response, m: Message) {
    && m.Assistant? && |m.blocks| == |resp.texts| + |resp.toolUses|
    && (forall i :: 0 <= i < |resp.texts| ==> m.blocks[i] == TextBlock(resp.texts[i]))
    && (forall i :: 0 <= i < |resp.toolUses| ==>
          var use := resp.toolUses[i];
          m.blocks[|resp.texts| + i] == ToolUseBlock(use.id, use.name, use.input))
  }

  /** What follows an answer: the tools if it asks for any, and the history for the next request. */
  predicate AnswerTold(t: Task, env: Env, s: Loop, resp: Response, tools: seq<Note>, turn: Turn) {
    var n, next := |s.messages|, turn.next;
    && s.messages <= next.messages && |next.messages| > n && Repeats(resp, next.messages[n])
    && if resp.stopReason == "tool_use" && resp.toolUses != [] then
         && turn.signal.Continue?
         && |next.messages| == n + 2 && next.messages[n + 1].Results?
         && AllTold(t, env, resp.toolUses, s.files, Pick(tools, IsToolStart), Pick(tools, IsToolEnd),
                    next.messages[n + 1].results, next.files)
       else
         && turn.signal == Finish(if resp.stopReason in {"max_tokens", "error"} then "failed" else "completed")
         && |next.messages| == n + 1 && tools == [] && next.files == s.files
  }

  /** What one turn logs, and what it leaves in the loop's variables: the request that is sent and
      its hash, the model's answer or exception, tokens and cost, and what the tools did. */
  predicate TurnTold(t: Task, env: Env, s: Loop, notes: seq<Note>, turn: Turn) {
    var request := RequestFor(t, s.messages);
    var hash := env.hashRequest(request);
    && |notes| >= 2
    && notes[0] == Note(s.step, StepStart(s.step))
    && notes[1] == Note(s.step, LlmStart(t.provider, t.model, hash, |s.messages|, t.params))
    && match env.client(s.step, request)
       case Raises(kind, message) => |notes| == 2 && turn.signal == Crash(kind, message) && turn.next == s
       case Returns(resp) =>
         var cost := Pricing.Cost(t.model, resp.inputTokens, resp.outputTokens);
         && |notes| >= 4
         && notes[2] == Note(s.step, LlmEnd(hash, env.hashResponse(resp), resp.inputTokens, resp.outputTokens,
                                            resp.stopReason, Pricing.Micros(cost), 0))
         && notes[|notes| - 1] == Note(s.step, StepEnd(s.step))
         && turn.next.step == s.step + 1 && turn.next.cost == s.cost + cost
         && turn.next.tokensIn == s.tokensIn + resp.inputTokens
         && turn.next.tokensOut == s.tokensOut + resp.outputTokens
         && AnswerTold(t, env, s, resp, notes[3..|notes| - 1], turn)
  }

  lemma AnswerIsTold(t: Task, env: Env, s: Loop, resp: Response)
    requires env.client(s.step, RequestOf(t, s.messages)) == Returns(resp)
    ensures var tools := if Continues(resp) then AllTools(t, env, resp.toolUses, s.files).actions else [];
            && LastStep(tools, s.step) == s.step
            && AnswerTold(t, env, s, resp, Notes(tools, s.step), OneTurn(t, env, s))
  {
    NotesNone(s.step);
    hide Notes, LastStep, AllTools, RequestOf, AllTold, Pick, AnswerEvent, Opening;
    ToolsTold(t, env, resp.toolUses, s.files, s.step);
    var n, next := |s.messages|, OneTurn(t, env, s).next;
    assert next.messages[n] == AssistantMessage(resp);
  }

  lemma TurnIsTold(t: Task, env: Env, s: Loop, before: int)
    ensures TurnTold(t, env, s, Notes(OneTurn(t, env, s).actions, before), OneTurn(t, env, s))
    ensures LastStep(OneTurn(t, env, s).actions, before) == s.step
  {
    var turn, o := OneTurn(t, env, s), Opening(t, env, s);
    var notes := Notes(turn.actions, before);
    RequestIsRequestFor(t, s.messages);
    Acceptance.TurnNotes(t, env, s, before);
    hide Notes, LastStep, AllTools, RequestOf, RequestFor, AnswerTold, Pricing.Cost, Pricing.Micros, AssistantMessage;
    match env.client(s.step, RequestOf(t, s.messages)) {
      case Raises(_, _) =>
      case Returns(resp) =>
        AnswerIsTold(t, env, s, resp);
        var tools := if Continues(resp) then AllTools(t, env, resp.toolUses, s.files).actions else [];
        var start := [Note(s.step, o[1].body), Note(s.step, o[2].body), Note(s.step, AnswerEvent(t, env, s, resp))];
        assert notes == start + Notes(tools, s.step) + [Note(s.step, StepEnd(s.step))];
        assert notes[3..|notes| - 1] == Notes(tools, s.step);
    }
  }

  // ---- Whole runs ----

  /** The loop's variables at the start of each turn. */
  function Turns(t: Task, env: Env, s: Loop): seq<Loop>
    decreases Limit(t) - s.step
  {
    if s.step >= Limit(t) then []
    else
      var turn := OneTurn(t, env, s);
      [s] + if turn.signal.Continue? && turn.next.step == s.step + 1 then Turns(t, env, turn.next) else []
  }

  /** The step limit: the task's, or 25. */
  function Limit(t: Task): int {
    match t.maxSteps
    case None => 25
    case Some(n) => n
  }

  /** The events of the given turns, one turn after the other. */
  function TurnsNotes(t: Task, env: Env, turns: seq<Loop>): seq<Note>
    decreases turns
  {
    if turns == [] then [] else Notes(OneTurn(t, env, turns[0]).actions, 0) + TurnsNotes(t, env, turns[1..])
  }

  /** What closes a run: agent_error with the exception if the last call raised one, and agent_done. */
  predicate Closes(t: Task, env: Env, turns: seq<Loop>, tail: seq<Note>) {
    && tail != [] && tail[|tail| - 1].body.AgentDone?
    && var crashed := if turns == [] then Returns(()) else Crashed(t, env, turns[|turns| - 1]);
       if crashed.Raises? then |tail| == 2 && tail[0].body == AgentError(crashed.kind, crashed.message) else |tail| == 1
  }

  /** Whether the call of this turn raises. */
  function Crashed(t: Task, env: Env, s: Loop): Outcome<()> {
    match env.client(s.step, RequestFor(t, s.messages))
    case Returns(_) => Returns(())
    case Raises(kind, message) => Raises(kind, message)
  }

  /** The notes of a turn do not depend on the step before it. */
  lemma TurnSetsStep(t: Task, env: Env, s: Loop, step: int)
    ensures Notes(OneTurn(t, env, s).actions, step) == Notes(OneTurn(t, env, s).actions, 0)
  {
    var actions := OneTurn(t, env, s).actions;
    assert actions == [SetStep(s.step)] + actions[1..] by { hide AllTools; }
    hide OneTurn, Notes;
    NotesCons(SetStep(s.step), actions[1..], step);
    NotesCons(SetStep(s.step), actions[1..], 0);
  }

  lemma TurnsCons(t: Task, env: Env, s: Loop, more: seq<Loop>)
    ensures TurnsNotes(t, env, [s] + more) == Notes(OneTurn(t, env, s).actions, 0) + TurnsNotes(t, env, more)
    ensures more == [] ==> TurnsNotes(t, env, [s] + more) == Notes(OneTurn(t, env, s).actions, 0)
  {
    hide OneTurn, Notes;
    assert ([s] + more)[0] == s && ([s] + more)[1..] == more;
  }

  /** How a turn goes on, from what it tells. */
  lemma TurnGoesOn(t: Task, env: Env, s: Loop)
    ensures var turn := OneTurn(t, env, s);
            && (turn.signal.Continue? ==> turn.next.step == s.step + 1)
            && match Crashed(t, env, s)
               case Returns(_) => !turn.signal.Crash?
               case Raises(kind, message) => turn.signal == Crash(kind, message)
  {
    TurnIsTold(t, env, s, 0);
    hide OneTurn, Notes, Repeats, AllTold, RequestFor, Pricing.Cost, Pricing.Micros;
  }

  /** The closing events of a run, after its last turn. */
  function Rest(s: Loop, turn: Turn): seq<Action> {
    match turn.signal
    case Continue => []
    case Finish(o) => [Emit(DoneEvent(turn.next, o))]
    case Crash(kind, message) => [Emit(AgentError(kind, message)), Emit(DoneEvent(s, "failed"))]
  }

  lemma RestCloses(t: Task, env: Env, s: Loop, k: int)
    requires !OneTurn(t, env, s).signal.Continue?
    ensures Closes(t, env, [s], Notes(Rest(s, OneTurn(t, env, s)), k))
  {
    TurnGoesOn(t, env, s);
    hide OneTurn, Notes, Crashed;
    var rest := Rest(s, OneTurn(t, env, s));
    if |rest| == 2 {
      assert rest == [rest[0]] + [rest[1]];
      NotesCons(rest[0], [rest[1]], k);
      NotesOne(rest[1], k);
    } else {
      assert rest == [rest[0]];
      NotesOne(rest[0], k);
    }
  }

  lemma {:induction false} FromTold(t: Task, env: Env, s: Loop, step: int) returns (tail: seq<Note>)
    ensures Notes(From(t, env, s), step) == TurnsNotes(t, env, Turns(t, env, s)) + tail
    ensures Closes(t, env, Turns(t, env, s), tail)
    decreases MaxSteps(t) - s.step
  {
    hide Notes, LastStep, OneTurn, TurnsNotes, Closes, Crashed;
    if s.step >= MaxSteps(t) {
      tail := NoTurns(t, env, s, step);
    } else {
      var turn := OneTurn(t, env, s);
      var k := LastStep(turn.actions, step);
      TurnGoesOn(t, env, s);
      TurnSetsStep(t, env, s, step);
      if turn.signal.Continue? {
        var more := Turns(t, env, turn.next);
        tail := FromTold(t, env, turn.next, k);
        NotesConcat(turn.actions, From(t, env, turn.next), step);
        TurnsCons(t, env, s, more);
        ClosesCons(t, env, s, more, tail);
        assert Turns(t, env, s) == [s] + more;
        assert Notes(From(t, env, s), step) ==
               Notes(turn.actions, 0) + (TurnsNotes(t, env, more) + tail);
      } else {
        tail := Notes(Rest(s, turn), k);
        NotesConcat(turn.actions, Rest(s, turn), step);
        TurnsCons(t, env, s, []);
        RestCloses(t, env, s, k);
        assert Turns(t, env, s) == [s] + [] == [s];
        assert From(t, env, s) == turn.actions + Rest(s, turn);
      }
    }
  }

  lemma ClosesCons(t: Task, env: Env, s: Loop, more: seq<Loop>, tail: seq<Note>)
    requires Closes(t, env, more, tail) && Crashed(t, env, s).Returns?
    ensures Closes(t, env, [s] + more, tail)
  {
    hide Crashed;
    if more != [] { assert ([s] + more)[|more|] == more[|more| - 1]; }
  }

  lemma NoTurns(t: Task, env: Env, s: Loop, step: int) returns (tail: seq<Note>)
    requires s.step >= MaxSteps(t)
    ensures Notes(From(t, env, s), step) == TurnsNotes(t, env, Turns(t, env, s)) + tail
    ensures Closes(t, env, Turns(t, env, s), tail)
  {
    var done := Emit(DoneEvent(s, "max_steps"));
    NotesOne(done, step);
    tail := Notes1(done, step);
    assert Notes(From(t, env, s), step) == [] + tail;
  }

  predicate Follows(t: Task, env: Env, s: Loop, s': Loop) {
    OneTurn(t, env, s).signal.Continue? && s' == OneTurn(t, env, s).next
  }

  /** One turn after the other, up to the limit unless a turn ends the run. */
  predicate Chained(t: Task, env: Env, turns: seq<Loop>, first: nat) {
    && (forall k :: 0 <= k < |turns| ==> turns[k].step == first + k < Limit(t))
    && (forall k :: 0 < k < |turns| ==> Follows(t, env, turns[k - 1], turns[k]))
    && (turns != [] && OneTurn(t, env, turns[|turns| - 1]).signal.Continue? ==> first + |turns| == Limit(t))
  }

  predicate EveryTurnTold(t: Task, env: Env, turns: seq<Loop>) {
    forall s :: s in turns ==> TurnTold(t, env, s, Notes(OneTurn(t, env, s).actions, 0), OneTurn(t, env, s))
  }

  lemma {:induction false} TurnsChained(t: Task, env: Env, s: Loop)
    ensures Chained(t, env, Turns(t, env, s), s.step)
    ensures Turns(t, env, s) == [] <==> s.step >= Limit(t)
    ensures Turns(t, env, s) != [] ==> Turns(t, env, s)[0] == s
    decreases MaxSteps(t) - s.step
  {
    hide OneTurn;
    if s.step < Limit(t) {
      var turn := OneTurn(t, env, s);
      TurnGoesOn(t, env, s);
      if turn.signal.Continue? {
        TurnsChained(t, env, turn.next);
        ChainedCons(t, env, s, Turns(t, env, turn.next));
      }
    }
  }

  lemma ChainedCons(t: Task, env: Env, s: Loop, more: seq<Loop>)
    requires s.step < Limit(t) && OneTurn(t, env, s).signal.Continue? && OneTurn(t, env, s).next.step == s.step + 1
    requires Chained(t, env, more, s.step + 1) && (more == [] ==> s.step + 1 >= Limit(t))
    requires more != [] ==> more[0] == OneTurn(t, env, s).next
    ensures Chained(t, env, [s] + more, s.step)
  {
    hide OneTurn;
    var all := [s] + more;
    forall k | 0 < k < |all| ensures Follows(t, env, all[k - 1], all[k]) {
      if k > 1 { assert Follows(t, env, more[k - 2], more[k - 1]); }
    }
  }

  /** The events of a run, turn by turn. */
  lemma StoryOfTurns(t: Task, env: Env, files: Workspace) returns (tail: seq<Note>)
    ensures var turns := Turns(t, env, Start(t, files));
            && Story(t, env, files) == [Note(0, StartEvent(t))] + TurnsNotes(t, env, turns) + tail
            && Closes(t, env, turns, tail)
  {
    var s := Start(t, files);
    tail := FromTold(t, env, s, 0);
    hide From, Notes, TurnsNotes, Turns, Closes;
    assert Whole(t, env, files) == [SetStep(0)] + ([Emit(StartEvent(t))] + From(t, env, s));
    NotesCons(SetStep(0), [Emit(StartEvent(t))] + From(t, env, s), 0);
    NotesCons(Emit(StartEvent(t)), From(t, env, s), 0);
  }

  /** The story of every run: agent_start with the task's own data, then its turns one after the
      other from step 0, each telling exactly what was asked, answered, called and returned, and
      then the exception if the last call raised one, and agent_done. */
  lemma RunIsTold(t: Task, env: Env, files: Workspace)
    ensures var story, turns := Story(t, env, files), Turns(t, env, Start(t, files));
            var n := 1 + |TurnsNotes(t, env, turns)|;
            && n < |story|
            && story[0] == Note(0, AgentStart(t.id, t.prompt, t.provider, t.model, Offered(t.tools), Limit(t)))
            && story[1..n] == TurnsNotes(t, env, turns)
            && Closes(t, env, turns, story[n..])
            && (turns == [] <==> Limit(t) <= 0)
            && (turns != [] ==> turns[0] == Loop(0, [Prompt(t.prompt)], files, 0, 0, 0))
            && Chained(t, env, turns, 0)
            && EveryTurnTold(t, env, turns)
  {
    var s := Start(t, files);
    var turns := Turns(t, env, s);
    KnownIsOffered(t.tools);
    TurnsChained(t, env, s);
    var tail := StoryOfTurns(t, env, files);
    assert EveryTurnTold(t, env, turns) by {
      forall s | s in turns ensures TurnTold(t, env, s, Notes(OneTurn(t, env, s).actions, 0), OneTurn(t, env, s)) {
        TurnIsTold(t, env, s, 0);
      }
    }
    hide Story, TurnsNotes, Chained, EveryTurnTold, Turns, Offered, Known;
    var story, n := Story(t, env, files), 1 + |TurnsNotes(t, env, turns)|;
    assert story[1..n] == TurnsNotes(t, env, turns) && story[n..] == tail;
  }
}
