/** Runs against a scripted client: how many steps they take and how they end. */
module Scripted {
  import opened Events
  import opened Plan
  import opened Trace
  import FileRead

  /** The scripted client as an oracle by call number. */
  function Script(responses: seq<Response>): (nat, Request) -> Outcome<Response> {
    (i: nat, _: Request) => if i < |responses| then Returns(responses[i]) else Raises("RuntimeError", Exhausted(|responses|))
  }

  function Exhausted(n: nat): string {
    "ScriptedClient exhausted after " + FileRead.Decimal(n) + " responses; loop tried to make another LLM call"
  }

  /** ScriptedClient: yields the responses in order, then raises. */
  class ScriptedClient {
    const responses: seq<Response>
    var idx: nat

    constructor (responses: seq<Response>)
      ensures this.responses == responses && idx == 0
    {
      this.responses := responses;
      idx := 0;
    }

    /** The call with number `idx` answers as the oracle does; only an answer moves the index. */
    method Complete(request: Request) returns (r: Outcome<Response>)
      modifies this
      ensures r == Script(responses)(old(idx), request)
      ensures idx == old(idx) + if r.Returns? then 1 else 0
    {
      if idx >= |responses| {
        return Raises("RuntimeError", Exhausted(|responses|));
      }
      r := Returns(responses[idx]);
      idx := idx + 1;
    }
  }

  /** The first response that does not ask to continue; the length of the script if all do. */
  function FirstStop(responses: seq<Response>): (j: nat)
    ensures j <= |responses|
    ensures j < |responses| ==> !Continues(responses[j])
    ensures forall i :: 0 <= i < j ==> Continues(responses[i])
  {
    if responses == [] || !Continues(responses[0]) then 0
    else
      var j := FirstStop(responses[1..]);
      assert forall i :: 0 < i <= j ==> responses[i] == responses[1..][i - 1];
      j + 1
  }

  datatype Ending = Ending(outcome: string, steps: int)

  /** The closed form. */
  function Expected(responses: seq<Response>, maxSteps: int): Ending {
    var j := FirstStop(responses);
    if j >= maxSteps then Ending("max_steps", if maxSteps < 0 then 0 else maxSteps)
    else if j < |responses| then
      Ending(if responses[j].stopReason in {"max_tokens", "error"} then "failed" else "completed", j + 1)
    else Ending("failed", |responses|)
  }

  /** How the plan from `s` on ends: the outcome and step count in its agent_done. */
  function EndingOf(plan: seq<Action>): Ending
    requires plan != [] && plan[|plan| - 1].Emit? && plan[|plan| - 1].body.AgentDone?
  {
    var done := plan[|plan| - 1].body;
    Ending(done.outcome, done.totalSteps)
  }

  /** Every plan ends with agent_done. */
  predicate Ends(plan: seq<Action>) {
    plan != [] && plan[|plan| - 1].Emit? && plan[|plan| - 1].body.AgentDone?
  }

  /** One turn against the script. */
  lemma ScriptedTurn(t: Task, env: Env, s: Loop, responses: seq<Response>)
    requires env.client == Script(responses)
    ensures var turn := OneTurn(t, env, s);
            && (s.step >= |responses| ==> turn.signal.Crash?)
            && (s.step < |responses| && Continues(responses[s.step]) ==> turn.signal.Continue? && turn.next.step == s.step + 1)
            && (s.step < |responses| && !Continues(responses[s.step]) ==>
                  turn.signal == Finish(OutcomeOf(responses[s.step].stopReason)) && turn.next.step == s.step + 1)
  {
    hide AllTools, AssistantMessage, RequestOf;
  }

  /** A plan ends as its last part does. */
  lemma EndsLike(a: seq<Action>, b: seq<Action>)
    requires Ends(b)
    ensures Ends(a + b) && EndingOf(a + b) == EndingOf(b)
  {
    assert (a + b)[|a + b| - 1] == b[|b| - 1];
  }

  lemma {:induction false} FromEnding(t: Task, env: Env, s: Loop, responses: seq<Response>)
    requires env.client == Script(responses)
    requires s.step <= FirstStop(responses) && (s.step == 0 || s.step <= MaxSteps(t))
    ensures Ends(From(t, env, s)) && EndingOf(From(t, env, s)) == Expected(responses, MaxSteps(t))
    decreases MaxSteps(t) - s.step
  {
    hide OneTurn, Script, FirstStop;
    if s.step < MaxSteps(t) {
      ScriptedTurn(t, env, s, responses);
      var turn := OneTurn(t, env, s);
      if s.step < FirstStop(responses) {
        FromEnding(t, env, turn.next, responses);
        hide Expected, Ends, EndingOf;
        EndsLike(turn.actions, From(t, env, turn.next));
      }
    }
  }

  /** The loop against a script of m responses, with j the first that does not continue: j + 1 steps
      if that comes within the script and the limit, the limit with "max_steps" if the limit
      comes first (no step at all for a limit of zero or less), and otherwise m steps, then an
      error and "failed". */
  lemma ScriptedRunEnds(t: Task, env: Env, files: Workspace, responses: seq<Response>)
    requires env.client == Script(responses)
    ensures Ends(Whole(t, env, files)) && EndingOf(Whole(t, env, files)) == Expected(responses, MaxSteps(t))
  {
    hide From, Ends, EndingOf, Expected;
    FromEnding(t, env, Start(t, files), responses);
    EndsLike([SetStep(0), Emit(StartEvent(t))], From(t, env, Start(t, files)));
  }

  /** The same, read off the trace of any run that its clock does not cut short. */
  lemma ScriptedTraceEnds(t: Task, env: Env, files: Workspace, responses: seq<Response>, clock: Clock)
    requires env.client == Script(responses)
    ensures var log := Exec(Fresh(clock, files), Whole(t, env, files)).log;
            !Exec(Fresh(clock, files), Whole(t, env, files)).halted ==>
              && log != [] && log[|log| - 1].body.AgentDone?
              && Ending(log[|log| - 1].body.outcome, log[|log| - 1].body.totalSteps) == Expected(responses, MaxSteps(t))
  {
    var whole, w := Whole(t, env, files), Exec(Fresh(clock, files), Whole(t, env, files));
    ScriptedRunEnds(t, env, files, responses);
    TraceIsStory(t, env, files, clock);
    hide Exec, Whole, Notes, LastStep, Expected;
    if !w.halted {
      var front, last := whole[..|whole| - 1], whole[|whole| - 1];
      assert whole == front + [last];
      NotesSnoc(front, last, 0);
      assert EraseAll(w.log) == Notes(front, 0) + Notes1(last, LastStep(front, 0));
      assert EraseAll(w.log)[|w.log| - 1] == Erase(w.log[|w.log| - 1]);
    }
  }
}
