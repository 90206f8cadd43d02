/** Every run of the loop, for every model and every tool, tells a story the monitor accepts. */
module Acceptance {
  import opened Options
  import opened Events
  import opened Tools
  import opened Plan
  import opened Trace
  import Monitor
  import Pricing
  import Replay

  /** The loop's variables when a turn begins. */
  predicate AtTurn(t: Task, s: Loop) {
    && |s.messages| == 2 * s.step + 1
    && s.cost == Pricing.Cost(t.model, s.tokensIn, s.tokensOut)
  }

  /** The reader between two turns, in the state the loop's variables describe. */
  function ReaderAt(t: Task, s: Loop): Monitor.Reader {
    Monitor.Reader(Monitor.Between, t.model, MaxSteps(t), s.step, s.step, 0, s.tokensIn, s.tokensOut)
  }

  /** The reader inside step `k`, whose registers are the loop's. */
  predicate Inside(m: Monitor.Reader, k: nat) {
    m.starts == k + 1
  }

  /** The notes of one tool call: start, perhaps a mutation, end. */
  predicate CallShape(notes: seq<Note>, k: int, id: string) {
    && 2 <= |notes| <= 3
    && notes[0].step == k && notes[0].body.ToolStart? && notes[0].body.callId == id
    && (|notes| == 3 ==> notes[1].step == k && notes[1].body.FileMutation?)
    && notes[|notes| - 1].step == k && notes[|notes| - 1].body.ToolEnd? && notes[|notes| - 1].body.callId == id
  }

  predicate CallActions(actions: seq<Action>, id: string) {
    && 2 <= |actions| <= 3
    && actions[0].Emit? && actions[0].body.ToolStart? && actions[0].body.callId == id
    && if |actions| == 3
       then actions[1].Peek? && actions[2].Emit? && actions[2].body.ToolEnd? && actions[2].body.callId == id
       else && actions[1].Timed? && actions[1].end.ToolEnd? && actions[1].end.callId == id
            && (actions[1].mutation.Some? ==> actions[1].mutation.value.FileMutation?)
  }

  lemma OneToolActions(t: Task, env: Env, use: ToolUse, files: Workspace)
    ensures CallActions(OneTool(t, env, use, files).actions, use.id)
  {
    hide Call, Known;
    Replay.CallMutates(env.host, use.name, use.input, files);
  }

  lemma CallNotes(actions: seq<Action>, id: string, k: int)
    requires CallActions(actions, id)
    ensures CallShape(Notes(actions, k), k, id) && LastStep(actions, k) == k
  {
    hide Notes, LastStep;
    var rest := actions[1..];
    assert actions == [actions[0]] + rest;
    NotesCons(actions[0], rest, k);
    if |actions| == 3 {
      assert rest == [Peek] + [actions[2]];
      NotesCons(Peek, [actions[2]], k);
      NotesOne(actions[2], k);
    } else {
      assert rest == [actions[1]];
      NotesOne(actions[1], k);
    }
  }

  /** The reader takes a tool call in its stride. */
  lemma CallJudged(notes: seq<Note>, m: Monitor.Reader, k: nat, id: string, calls: nat)
    requires CallShape(notes, k, id) && Inside(m, k) && m.mode == Monitor.Answered("tool_use", calls)
    ensures Monitor.Judge(m, notes) == m.(mode := Monitor.Answered("tool_use", calls + 1))
  {
    hide Monitor.Judge;
    if |notes| == 2 {
      assert notes == [notes[0], notes[1]];
      Monitor.JudgeTwo(m, notes[0], notes[1]);
    } else {
      assert notes == [notes[0], notes[1], notes[2]];
      Monitor.JudgeThree(m, notes[0], notes[1], notes[2]);
    }
  }

  lemma {:induction false} ToolsStory(t: Task, env: Env, uses: seq<ToolUse>, files: Workspace, m: Monitor.Reader, k: nat,
                                      calls: nat)
    requires Inside(m, k) && m.mode == Monitor.Answered("tool_use", calls)
    ensures Monitor.Judge(m, Notes(AllTools(t, env, uses, files).actions, k)) ==
            m.(mode := Monitor.Answered("tool_use", calls + |uses|))
    ensures LastStep(AllTools(t, env, uses, files).actions, k) == k
    decreases uses
  {
    Monitor.JudgeNone(m);
    NotesNone(k);
    hide OneTool, Monitor.Judge, Notes, LastStep, CallActions, CallShape, Monitor.Step;
    if uses != [] {
      var first := OneTool(t, env, uses[0], files).actions;
      var files1 := OneTool(t, env, uses[0], files).files;
      OneToolActions(t, env, uses[0], files);
      CallNotes(first, uses[0].id, k);
      CallJudged(Notes(first, k), m, k, uses[0].id, calls);
      var m1 := m.(mode := Monitor.Answered("tool_use", calls + 1));
      ToolsStory(t, env, uses[1..], files1, m1, k, calls + 1);
      var rest := AllTools(t, env, uses[1..], files1).actions;
      assert AllTools(t, env, uses, files).actions == first + rest;
      NotesConcat(first, rest, k);
      Monitor.JudgeConcat(m, Notes(first, k), Notes(rest, k));
    }
  }

  // ---- One turn ----

  /** The notes of a turn: two opening events, the answer if there is one, the tools, the end. */
  lemma TurnNotes(t: Task, env: Env, s: Loop, before: int)
    ensures var o := Opening(t, env, s);
            var turn := OneTurn(t, env, s);
            var start := [Note(s.step, o[1].body), Note(s.step, o[2].body)];
            match env.client(s.step, RequestOf(t, s.messages))
            case Raises(_, _) => Notes(turn.actions, before) == start && LastStep(turn.actions, before) == s.step
            case Returns(resp) =>
              var tools := if Continues(resp) then AllTools(t, env, resp.toolUses, s.files).actions else [];
              LastStep(tools, s.step) == s.step ==>
                && LastStep(turn.actions, before) == s.step
                && Notes(turn.actions, before) ==
                     start + [Note(s.step, AnswerEvent(t, env, s, resp))] + Notes(tools, s.step)
                     + [Note(s.step, StepEnd(s.step))]
  {
    hide Notes, LastStep, AllTools, RequestOf, Charged, AnswerEvent;
    var o, turn := Opening(t, env, s), OneTurn(t, env, s);
    var start := [Note(s.step, o[1].body), Note(s.step, o[2].body)];
    OpeningNotes(t, env, s, before);
    match env.client(s.step, RequestOf(t, s.messages))
    case Raises(_, _) => NotesSnoc(o, Peek, before);
    case Returns(resp) =>
      var tools := if Continues(resp) then AllTools(t, env, resp.toolUses, s.files).actions else [];
      var ask := Timed(None, None, AnswerEvent(t, env, s, resp));
      AnswerUntimed(t, env, s, resp);
      hide Opening;
      NotesSnoc(o, ask, before);
      NotesConcat(o + [ask], tools, before);
      NotesSnoc(o + [ask] + tools, Emit(StepEnd(s.step)), before);
      assert turn.actions == o + [ask] + tools + [Emit(StepEnd(s.step))];
  }

  lemma AnswerUntimed(t: Task, env: Env, s: Loop, resp: Response)
    ensures WithLatency(AnswerEvent(t, env, s, resp), 0) == AnswerEvent(t, env, s, resp)
  {
  }

  lemma OpeningNotes(t: Task, env: Env, s: Loop, before: int)
    ensures var o := Opening(t, env, s);
            && Notes(o, before) == [Note(s.step, o[1].body), Note(s.step, o[2].body)]
            && LastStep(o, before) == s.step
  {
    hide Notes, LastStep, RequestOf;
    var o := Opening(t, env, s);
    assert o == [o[0]] + ([o[1]] + [o[2]]);
    NotesCons(o[0], [o[1]] + [o[2]], before);
    NotesCons(o[1], [o[2]], s.step);
    NotesOne(o[2], s.step);
  }

  lemma ChargeKeepsCost(t: Task, s: Loop, resp: Response)
    requires s.cost == Pricing.Cost(t.model, s.tokensIn, s.tokensOut)
    ensures var c := Charged(t, s, resp);
            c.cost == Pricing.Cost(t.model, c.tokensIn, c.tokensOut)
  {
    Pricing.CostAdds(t.model, s.tokensIn, s.tokensOut, resp.inputTokens, resp.outputTokens);
  }

  /** The reader after the two opening events. */
  lemma OpeningJudged(t: Task, env: Env, s: Loop)
    requires AtTurn(t, s) && s.step < MaxSteps(t)
    ensures var o := Opening(t, env, s);
            Monitor.Judge(ReaderAt(t, s), [Note(s.step, o[1].body), Note(s.step, o[2].body)]) ==
              ReaderAt(t, s).(mode := Monitor.Calling(env.hashRequest(RequestOf(t, s.messages))), starts := s.step + 1)
  {
    hide Monitor.Judge, Pricing.Cost;
    var o := Opening(t, env, s);
    Monitor.JudgeTwo(ReaderAt(t, s), Note(s.step, o[1].body), Note(s.step, o[2].body));
  }

  /** The reader after the answer of a turn. */
  function ReaderAnswered(t: Task, s: Loop, resp: Response): Monitor.Reader {
    ReaderAt(t, Charged(t, s, resp)).(mode := Monitor.Answered(resp.stopReason, 0), starts := s.step + 1)
  }

  lemma AnswerRead(t: Task, env: Env, s: Loop, resp: Response)
    requires AtTurn(t, s) && s.step < MaxSteps(t)
    ensures var hash := env.hashRequest(RequestOf(t, s.messages));
            Monitor.Step(ReaderAt(t, s).(mode := Monitor.Calling(hash), starts := s.step + 1),
                         Note(s.step, AnswerEvent(t, env, s, resp))) == ReaderAnswered(t, s, resp)
  {
    hide RequestOf, Pricing.Cost, Pricing.Micros, AssistantMessage;
  }

  lemma StepEndRead(t: Task, s: Loop, resp: Response)
    requires AtTurn(t, s) && s.step < MaxSteps(t)
    ensures var calls := if Continues(resp) then |resp.toolUses| else 0;
            Monitor.Step(ReaderAnswered(t, s, resp).(mode := Monitor.Answered(resp.stopReason, calls)),
                         Note(s.step, StepEnd(s.step))) ==
              ReaderAt(t, Charged(t, s, resp).(step := s.step + 1)).(mode :=
                if Continues(resp) then Monitor.Between else Monitor.Closed(OutcomeOf(resp.stopReason)))
  {
    hide Pricing.Cost, AssistantMessage;
  }

  /** The reader after a whole answered turn. */
  lemma AnsweredJudged(t: Task, env: Env, s: Loop, resp: Response, tools: seq<Note>)
    requires AtTurn(t, s) && s.step < MaxSteps(t)
    requires var m := ReaderAnswered(t, s, resp);
             Monitor.Judge(m, tools) ==
               m.(mode := Monitor.Answered(resp.stopReason, if Continues(resp) then |resp.toolUses| else 0))
    ensures var o := Opening(t, env, s);
            var start := [Note(s.step, o[1].body), Note(s.step, o[2].body)];
            var notes := start + [Note(s.step, AnswerEvent(t, env, s, resp))] + tools + [Note(s.step, StepEnd(s.step))];
            Monitor.Judge(ReaderAt(t, s), notes) ==
              ReaderAt(t, Charged(t, s, resp).(step := s.step + 1)).(mode :=
                if Continues(resp) then Monitor.Between else Monitor.Closed(OutcomeOf(resp.stopReason)))
  {
    var o := Opening(t, env, s);
    var start := [Note(s.step, o[1].body), Note(s.step, o[2].body)];
    var answer, end := Note(s.step, AnswerEvent(t, env, s, resp)), Note(s.step, StepEnd(s.step));
    OpeningJudged(t, env, s);
    AnswerRead(t, env, s, resp);
    StepEndRead(t, s, resp);
    hide Monitor.Judge, Monitor.Step, Opening, ReaderAt, ReaderAnswered, AnswerEvent, Charged, RequestOf, AtTurn;
    var m0 := Monitor.Judge(ReaderAt(t, s), start);
    var m1 := Monitor.Step(m0, answer);
    Monitor.JudgeConcat(ReaderAt(t, s), start, [answer]);
    Monitor.JudgeOne(m0, answer);
    Monitor.JudgeConcat(ReaderAt(t, s), start + [answer], tools);
    Monitor.JudgeConcat(ReaderAt(t, s), start + [answer] + tools, [end]);
    Monitor.JudgeOne(Monitor.Judge(m1, tools), end);
  }

  /** The tools of an answered turn take the reader from the answer to the last result. */
  lemma TurnToolsJudged(t: Task, env: Env, s: Loop, resp: Response)
    requires AtTurn(t, s) && s.step < MaxSteps(t)
    ensures var tools := if Continues(resp) then AllTools(t, env, resp.toolUses, s.files).actions else [];
            var m := ReaderAnswered(t, s, resp);
            && LastStep(tools, s.step) == s.step
            && Monitor.Judge(m, Notes(tools, s.step)) ==
                 m.(mode := Monitor.Answered(resp.stopReason, if Continues(resp) then |resp.toolUses| else 0))
  {
    NotesNone(s.step);
    Monitor.JudgeNone(ReaderAnswered(t, s, resp));
    hide Notes, LastStep, Monitor.Judge, AllTools, Pricing.Cost, AssistantMessage;
    if Continues(resp) { ToolsStory(t, env, resp.toolUses, s.files, ReaderAnswered(t, s, resp), s.step, 0); }
  }

  lemma TurnJudged(t: Task, env: Env, s: Loop, before: int)
    requires AtTurn(t, s) && s.step < MaxSteps(t)
    ensures var turn := OneTurn(t, env, s);
            var m := Monitor.Judge(ReaderAt(t, s), Notes(turn.actions, before));
            && LastStep(turn.actions, before) == s.step
            && match turn.signal
               case Continue => AtTurn(t, turn.next) && turn.next.step == s.step + 1 && m == ReaderAt(t, turn.next)
               case Finish(o) =>
                 && turn.next.step == s.step + 1 && m == ReaderAt(t, turn.next).(mode := Monitor.Closed(o))
                 && turn.next.cost == Pricing.Cost(t.model, turn.next.tokensIn, turn.next.tokensOut)
               case Crash(_, _) => m.mode.Calling? && m == ReaderAt(t, s).(mode := m.mode, starts := s.step + 1)
  {
    TurnNotes(t, env, s, before);
    var answer := env.client(s.step, RequestOf(t, s.messages));
    hide Notes, LastStep, Monitor.Judge, AllTools, AnswerEvent, Pricing.Cost, AssistantMessage;
    if answer.Raises? {
      OpeningJudged(t, env, s);
    } else {
      hide Opening;
      var resp := answer.value;
      var tools := if Continues(resp) then AllTools(t, env, resp.toolUses, s.files).actions else [];
      ChargeKeepsCost(t, s, resp);
      TurnToolsJudged(t, env, s, resp);
      AnsweredJudged(t, env, s, resp, Notes(tools, s.step));
    }
  }

  // ---- Whole runs ----

  /** One closing event after some notes. */
  lemma JudgeSnoc(m: Monitor.Reader, notes: seq<Note>, n: Note)
    ensures Monitor.Judge(m, notes + [n]) == Monitor.Step(Monitor.Judge(m, notes), n)
  {
    Monitor.JudgeConcat(m, notes, [n]);
    Monitor.JudgeOne(Monitor.Judge(m, notes), n);
  }

  lemma {:induction false} FromAccepted(t: Task, env: Env, s: Loop)
    requires AtTurn(t, s)
    ensures Monitor.Judge(ReaderAt(t, s), Notes(From(t, env, s), Monitor.StepOf(ReaderAt(t, s)))).mode == Monitor.Ended
    decreases MaxSteps(t) - s.step
  {
    var m, before := ReaderAt(t, s), Monitor.StepOf(ReaderAt(t, s));
    hide Monitor.Judge, Notes, LastStep, OneTurn, AtTurn, Pricing.Cost, Pricing.Micros;
    if s.step >= MaxSteps(t) {
      var done := Emit(DoneEvent(s, "max_steps"));
      NotesOne(done, before);
      Monitor.JudgeOne(m, Note(before, done.body));
      assert s.cost == Pricing.Cost(t.model, s.tokensIn, s.tokensOut) by { CostKnown(t, s); }
    } else {
      var turn := OneTurn(t, env, s);
      var notes := Notes(turn.actions, before);
      TurnJudged(t, env, s, before);
      match turn.signal
      case Continue =>
        FromAccepted(t, env, turn.next);
        NotesConcat(turn.actions, From(t, env, turn.next), before);
        Monitor.JudgeConcat(m, notes, Notes(From(t, env, turn.next), s.step));
      case Finish(o) =>
        var done := Emit(DoneEvent(turn.next, o));
        NotesSnoc(turn.actions, done, before);
        JudgeSnoc(m, notes, Note(s.step, done.body));
      case Crash(kind, message) =>
        CostKnown(t, s);
        var error, done := Emit(AgentError(kind, message)), Emit(DoneEvent(s, "failed"));
        assert turn.actions + [error, done] == turn.actions + [error] + [done];
        NotesSnoc(turn.actions, error, before);
        NotesSnoc(turn.actions + [error], done, before);
        JudgeSnoc(m, notes, Note(s.step, error.body));
        JudgeSnoc(m, notes + [Note(s.step, error.body)], Note(s.step, done.body));
    }
  }

  lemma CostKnown(t: Task, s: Loop)
    requires AtTurn(t, s)
    ensures s.cost == Pricing.Cost(t.model, s.tokensIn, s.tokensOut)
  {
  }

  /** Every run, for every model (raising ones included) and every tool (raising ones included),
      tells an accepted story: agent_start, steps in order, perhaps a crash inside the last step,
      and an agent_done that sums everything up. */
  lemma StoryAccepted(t: Task, env: Env, files: Workspace)
    ensures Monitor.Accepts(Story(t, env, files))
  {
    var s, start := Start(t, files), Note(0, StartEvent(t));
    var from := From(t, env, s);
    assert AtTurn(t, s) by { Pricing.ZeroCost(t.model); }
    FromAccepted(t, env, s);
    hide From, Notes, LastStep, Monitor.Judge;
    assert Whole(t, env, files) == [SetStep(0)] + ([Emit(StartEvent(t))] + from);
    NotesCons(SetStep(0), [Emit(StartEvent(t))] + from, 0);
    NotesCons(Emit(StartEvent(t)), from, 0);
    assert Story(t, env, files) == [start] + Notes(from, 0);
    Monitor.JudgeConcat(Monitor.Initial, [start], Notes(from, 0));
    Monitor.JudgeOne(Monitor.Initial, start);
  }

  /** The trace written by a run that the clock does not cut short: accepted by the monitor, and
      so with an agent_done that follows from the other events and a Trace.total_steps that
      agrees with it exactly if no agent_error occurred and a step was made. */
  lemma TraceAccepted(t: Task, env: Env, files: Workspace, clock: Clock)
    ensures var w := Exec(Fresh(clock, files), Whole(t, env, files));
            var notes := EraseAll(w.log);
            !w.halted ==>
              && Monitor.Accepts(notes)
              && |notes| == |w.log| > 0 && w.log[|w.log| - 1].body.AgentDone?
              && w.log[|w.log| - 1].body.totalSteps == Monitor.Count(notes, Monitor.IsStepEnd)
              && (Monitor.TotalSteps(notes) == w.log[|w.log| - 1].body.totalSteps <==>
                    Monitor.Count(notes, Monitor.IsError) == 0 && Monitor.Count(notes, Monitor.IsStepStart) >= 1)
  {
    hide Exec, Whole, Notes, Monitor.Accepts, Monitor.Count, Monitor.TotalSteps;
    var w := Exec(Fresh(clock, files), Whole(t, env, files));
    StoryAccepted(t, env, files);
    TraceIsStory(t, env, files, clock);
    if !w.halted {
      var notes := EraseAll(w.log);
      Monitor.TotalStepsIff(notes);
      assert notes[|notes| - 1] == Erase(w.log[|w.log| - 1]);
    }
  }

  /** A run whose two step counts differ: with a limit of zero or less, agent_done says 0 and
      Trace.total_steps says 1. */
  lemma NoStepsCountAsOne(t: Task, env: Env, files: Workspace)
    requires MaxSteps(t) <= 0
    ensures var story := Story(t, env, files);
            && |story| == 2 && story[1].body.AgentDone? && story[1].body.totalSteps == 0
            && Monitor.TotalSteps(story) == 1
  {
    var start, done := Emit(StartEvent(t)), Emit(DoneEvent(Start(t, files), "max_steps"));
    assert Whole(t, env, files) == [SetStep(0)] + ([start] + [done]);
    hide Whole, Notes;
    NotesCons(SetStep(0), [start] + [done], 0);
    NotesCons(start, [done], 0);
    NotesOne(done, 0);
    var story := Story(t, env, files);
    assert story == [Note(0, start.body), Note(0, done.body)];
    assert Monitor.MaxStep(story[..1]) == 0;
  }
}
