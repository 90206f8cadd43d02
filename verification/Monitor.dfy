/** The language of traces, as a monitor that reads events one by one. It shares with the loop only
    the prices. It accepts a trace only if every bracket is well formed, steps are numbered in
    order, ids and request hashes match, each logged cost follows from its tokens, and agent_done
    reports exactly the totals and the outcome that the earlier events imply. */
module Monitor {
  import opened Events
  import opened Trace
  import Pricing

  datatype Mode =
    | Begin                                          // nothing read yet
    | Between                                        // after agent_start or a continuing step
    | Opened                                         // agent_step_start read
    | Calling(hash: string)                          // llm_call_start read
    | Answered(stop: string, calls: nat)             // llm_call_end and some tool calls read
    | InTool(stop: string, calls: nat, id: string)   // tool_call_start read
    | Mutated(stop: string, calls: nat, id: string)  // and its file_mutation
    | Closed(outcome: string)                        // after a step that does not continue
    | Crashed                                        // agent_error read
    | Ended                                          // agent_done read
    | Rejected

  datatype Reader = Reader(mode: Mode, model: string, maxSteps: int, starts: nat, ends: nat, errors: nat,
                           tokensIn: int, tokensOut: int)

  const Initial := Reader(Begin, "", 0, 0, 0, 0, 0, 0)

  /** The number of the step that is open or was last open. */
  function StepOf(m: Reader): int {
    if m.starts == 0 then 0 else m.starts - 1
  }

  /** The agent_done that the events so far call for. */
  function Summary(m: Reader, outcome: string): Body {
    AgentDone(outcome, m.ends, Pricing.Micros(Pricing.Cost(m.model, m.tokensIn, m.tokensOut)), m.tokensIn, m.tokensOut)
  }

  function Finish(m: Reader, n: Note, outcome: string): Reader {
    m.(mode := if n.body == Summary(m, outcome) && n.step == StepOf(m) then Ended else Rejected)
  }

  function Check(m: Reader, n: Note, ok: bool, next: Mode): Reader {
    m.(mode := if ok && n.step == StepOf(m) then next else Rejected)
  }

  /** How a run ends that the model ends with this stop reason. */
  function Verdict(stop: string): string {
    if stop in {"max_tokens", "error"} then "failed" else "completed"
  }

  function Step(m: Reader, n: Note): Reader {
    match m.mode
    case Begin =>
      (match n.body
       case AgentStart(_, _, _, model, _, maxSteps) => Check(m, n, true, Between).(model := model, maxSteps := maxSteps)
       case _ => m.(mode := Rejected))
    case Between =>
      (match n.body
       case StepStart(k) => Check(m.(starts := m.starts + 1), n, k == m.ends == m.starts && m.ends < m.maxSteps, Opened)
       case AgentDone(_, _, _, _, _) =>
         if m.ends >= m.maxSteps then Finish(m, n, "max_steps") else m.(mode := Rejected)
       case _ => m.(mode := Rejected))
    case Opened =>
      (match n.body
       case LlmStart(_, model, hash, count, _) => Check(m, n, model == m.model && count == 2 * m.ends + 1, Calling(hash))
       case _ => m.(mode := Rejected))
    case Calling(hash) =>
      (match n.body
       case LlmEnd(hash', _, input, output, stop, cost, _) =>
         Check(m, n, hash' == hash && cost == Pricing.Micros(Pricing.Cost(m.model, input, output)), Answered(stop, 0))
           .(tokensIn := m.tokensIn + input, tokensOut := m.tokensOut + output)
       case AgentError(_, _) => Check(m, n, true, Crashed).(errors := m.errors + 1)
       case _ => m.(mode := Rejected))
    case Answered(stop, calls) =>
      (match n.body
       case ToolStart(_, _, id) => Check(m, n, stop == "tool_use", InTool(stop, calls, id))
       case StepEnd(k) =>
         Check(m, n, k == StepOf(m), if stop == "tool_use" && calls > 0 then Between else Closed(Verdict(stop)))
           .(ends := m.ends + 1)
       case _ => m.(mode := Rejected))
    case InTool(stop, calls, id) =>
      (match n.body
       case FileMutation(_, _, _, _, _) => Check(m, n, true, Mutated(stop, calls, id))
       case ToolEnd(id', _, _, _, _) => Check(m, n, id' == id, Answered(stop, calls + 1))
       case _ => m.(mode := Rejected))
    case Mutated(stop, calls, id) =>
      (match n.body
       case ToolEnd(id', _, _, _, _) => Check(m, n, id' == id, Answered(stop, calls + 1))
       case _ => m.(mode := Rejected))
    case Closed(outcome) => Finish(m, n, outcome)
    case Crashed => Finish(m, n, "failed")
    case _ => m.(mode := Rejected)
  }

  function Judge(m: Reader, notes: seq<Note>): Reader
    decreases notes
  {
    if notes == [] then m else Judge(Step(m, notes[0]), notes[1..])
  }

  predicate Accepts(notes: seq<Note>) {
    Judge(Initial, notes).mode == Ended
  }

  lemma {:induction false} JudgeConcat(m: Reader, a: seq<Note>, b: seq<Note>)
    ensures Judge(m, a + b) == Judge(Judge(m, a), b)
    decreases a
  {
    if a == [] {
      assert a + b == b;
    } else {
      assert (a + b)[1..] == a[1..] + b;
      JudgeConcat(Step(m, a[0]), a[1..], b);
    }
  }

  lemma JudgeNone(m: Reader)
    ensures Judge(m, []) == m
  {
  }

  lemma JudgeOne(m: Reader, n: Note)
    ensures Judge(m, [n]) == Step(m, n)
  {
    assert [n][1..] == [];
    assert Judge(m, [n]) == Judge(Step(m, n), []);
  }

  lemma JudgeTwo(m: Reader, a: Note, b: Note)
    ensures Judge(m, [a, b]) == Step(Step(m, a), b)
  {
    hide Step;
    assert [a, b][1..] == [b];
    JudgeOne(Step(m, a), b);
  }

  lemma JudgeThree(m: Reader, a: Note, b: Note, c: Note)
    ensures Judge(m, [a, b, c]) == Step(Step(Step(m, a), b), c)
  {
    hide Step;
    assert [a, b, c][1..] == [b, c];
    JudgeTwo(Step(m, a), b, c);
  }

  lemma {:induction false} RejectedStays(m: Reader, notes: seq<Note>)
    requires m.mode == Rejected || (m.mode == Ended && notes != [])
    ensures Judge(m, notes).mode == Rejected
    decreases notes
  {
    if notes != [] {
      RejectedStays(Step(m, notes[0]), notes[1..]);
    }
  }

  /** The last event is read in the state the others lead to. */
  lemma ReadLast(notes: seq<Note>)
    requires notes != [] && Judge(Initial, notes).mode != Rejected
    ensures var front, last := notes[..|notes| - 1], notes[|notes| - 1];
            && Judge(Initial, notes) == Step(Judge(Initial, front), last)
            && Judge(Initial, front).mode != Rejected
  {
    hide Step;
    var front, last := notes[..|notes| - 1], notes[|notes| - 1];
    assert notes == front + [last];
    JudgeConcat(Initial, front, [last]);
    JudgeOne(Judge(Initial, front), last);
    if Judge(Initial, front).mode == Rejected { RejectedStays(Judge(Initial, front), [last]); }
  }

  // ---- What acceptance says in plain counts ----

  function Count(notes: seq<Note>, p: Body -> bool): nat {
    if notes == [] then 0 else Count(notes[..|notes| - 1], p) + if p(notes[|notes| - 1].body) then 1 else 0
  }

  function Total(notes: seq<Note>, f: Body -> int): int {
    if notes == [] then 0 else Total(notes[..|notes| - 1], f) + f(notes[|notes| - 1].body)
  }

  predicate IsStepStart(b: Body) { b.StepStart? }
  predicate IsStepEnd(b: Body) { b.StepEnd? }
  predicate IsError(b: Body) { b.AgentError? }
  function InputOf(b: Body): int { if b.LlmEnd? then b.inputTokens else 0 }
  function OutputOf(b: Body): int { if b.LlmEnd? then b.outputTokens else 0 }

  /** Trace.total_steps: one more than the largest step number, zero for no events. */
  function TotalSteps(notes: seq<Note>): int {
    if notes == [] then 0 else MaxStep(notes) + 1
  }

  function MaxStep(notes: seq<Note>): int
    requires notes != []
  {
    var last := notes[|notes| - 1].step;
    if |notes| == 1 then last
    else
      var rest := MaxStep(notes[..|notes| - 1]);
      if rest < last then last else rest
  }

  /** The reader's registers are plain counts and sums over what it has read. */
  lemma {:induction false} RegistersCount(notes: seq<Note>)
    requires Judge(Initial, notes).mode != Rejected
    ensures var m := Judge(Initial, notes);
            && m.starts == Count(notes, IsStepStart)
            && m.ends == Count(notes, IsStepEnd)
            && m.errors == Count(notes, IsError)
            && m.tokensIn == Total(notes, InputOf)
            && m.tokensOut == Total(notes, OutputOf)
            && (notes != [] ==> MaxStep(notes) == StepOf(m))
    decreases notes
  {
    if notes != [] {
      hide Judge;
      ReadLast(notes);
      RegistersCount(notes[..|notes| - 1]);
    }
  }

  /** Where the reader can be, by its registers. */
  predicate Sound(m: Reader) {
    match m.mode
    case Begin => m.starts == 0 && m.ends == 0 && m.errors == 0
    case Between => m.starts == m.ends && m.errors == 0
    case Closed(_) => m.starts == m.ends >= 1 && m.errors == 0
    case Crashed => m.starts == m.ends + 1 && m.errors == 1
    case Ended => if m.errors == 0 then m.starts == m.ends else m.starts == m.ends + 1
    case Rejected => true
    case _ => m.starts == m.ends + 1 && m.errors == 0
  }

  lemma {:induction false} JudgeSound(m: Reader, notes: seq<Note>)
    requires Sound(m)
    ensures Sound(Judge(m, notes))
    decreases notes
  {
    if notes != [] {
      JudgeSound(Step(m, notes[0]), notes[1..]);
    }
  }

  // ---- The model and the outcome, read off the events ----

  function NextAnswer(last: (string, bool), b: Body): (string, bool) {
    match b
    case LlmEnd(_, _, _, _, stop, _, _) => (stop, false)
    case ToolEnd(_, _, _, _, _) => (last.0, true)
    case _ => last
  }

  /** Stop reason of the last llm_call_end, and whether a tool call ended after it. */
  function LastAnswer(notes: seq<Note>): (string, bool) {
    if notes == [] then ("", false)
    else NextAnswer(LastAnswer(notes[..|notes| - 1]), notes[|notes| - 1].body)
  }

  /** How a run with these events ended: it crashed, or it ran into its limit with no step made or
      after a step with tool calls, or its last answer ended it. */
  function OutcomeFrom(notes: seq<Note>): string {
    var (stop, used) := LastAnswer(notes);
    if Count(notes, IsError) > 0 then "failed"
    else if Count(notes, IsStepEnd) == 0 || (stop == "tool_use" && used) then "max_steps"
    else if stop == "max_tokens" || stop == "error" then "failed"
    else "completed"
  }

  /** What the mode of the reader says about the last answer. */
  predicate Recalls(m: Reader, last: (string, bool)) {
    match m.mode
    case Begin => m.ends == 0
    case Between => m.ends == 0 || last == ("tool_use", true)
    case Answered(stop, calls) => last == (stop, calls > 0)
    case InTool(stop, calls, _) => last == (stop, calls > 0)
    case Mutated(stop, calls, _) => last == (stop, calls > 0)
    case Closed(outcome) => outcome == Verdict(last.0) && last != ("tool_use", true)
    case _ => true
  }

  lemma StepRecalls(m: Reader, n: Note, last: (string, bool))
    requires Recalls(m, last)
    ensures Recalls(Step(m, n), NextAnswer(last, n.body))
  {
    hide Pricing.Cost, Pricing.Micros, Verdict;
    match m.mode {
      case Answered(_, _) =>
      case InTool(_, _, _) =>
      case Mutated(_, _, _) =>
      case Calling(_) =>
      case _ =>
    }
  }

  lemma NothingRecalled()
    ensures Recalls(Initial, LastAnswer([]))
  {
  }

  /** The model is the one agent_start names, and the mode recalls the last answer. */
  lemma {:induction false} ReaderRecalls(notes: seq<Note>)
    requires Judge(Initial, notes).mode != Rejected
    ensures var m := Judge(Initial, notes);
            && Recalls(m, LastAnswer(notes))
            && (notes == [] <==> m.mode == Begin)
            && (notes != [] ==> notes[0].body.AgentStart? && m.model == notes[0].body.model)
    decreases notes
  {
    hide Judge, Recalls, Step, NextAnswer;
    JudgeNone(Initial);
    NothingRecalled();
    if notes != [] {
      var front := notes[..|notes| - 1];
      ReadLast(notes);
      ReaderRecalls(front);
      StepRecalls(Judge(Initial, front), notes[|notes| - 1], LastAnswer(front));
      StepCosts(Judge(Initial, front), notes[|notes| - 1]);
    }
  }

  /** In every accepted trace the first event is agent_start, the last is agent_done, and all of
      that follows from the events before: total_steps counts the closed steps, the token totals
      are sums over llm_call_end, the cost is the price of those totals for the model that
      agent_start names, and the outcome is OutcomeFrom. */
  lemma DoneIsReconstructible(notes: seq<Note>)
    requires Accepts(notes)
    ensures |notes| >= 2 && notes[0].body.AgentStart? && notes[|notes| - 1].body.AgentDone?
    ensures var start, done, before := notes[0].body, notes[|notes| - 1].body, notes[..|notes| - 1];
            && done.outcome == OutcomeFrom(before)
            && done.totalSteps == Count(before, IsStepEnd)
            && done.totalInputTokens == Total(before, InputOf)
            && done.totalOutputTokens == Total(before, OutputOf)
            && done.totalCostMicros == Pricing.Micros(Pricing.Cost(start.model, done.totalInputTokens, done.totalOutputTokens))
  {
    hide Judge;
    JudgeNone(Initial);
    ReadLast(notes);
    var before := notes[..|notes| - 1];
    RegistersCount(before);
    ReaderRecalls(before);
    assert Sound(Judge(Initial, before)) by { JudgeSound(Initial, before); }
  }

  /** The outcome in words: "failed" after an agent_error; "max_steps" if no step closed or the last
      answer asked for tools that were called; otherwise "failed" exactly if the last answer
      stopped with "max_tokens" or "error", and "completed" exactly if it stopped with anything
      else. */
  lemma OutcomeInWords(notes: seq<Note>)
    requires Accepts(notes)
    ensures |notes| >= 2 && notes[|notes| - 1].body.AgentDone?
    ensures var outcome, before := notes[|notes| - 1].body.outcome, notes[..|notes| - 1];
            var (stop, used) := LastAnswer(before);
            var crashed := Count(before, IsError) > 0;
            var limited := Count(before, IsStepEnd) == 0 || (stop == "tool_use" && used);
            && (crashed ==> outcome == "failed")
            && (!crashed && limited ==> outcome == "max_steps")
            && (!crashed && !limited ==>
                  && (outcome == "failed" <==> stop == "max_tokens" || stop == "error")
                  && (outcome == "completed" <==> stop != "max_tokens" && stop != "error"))
  {
    hide Accepts, Count, LastAnswer;
    DoneIsReconstructible(notes);
  }

  /** Trace.total_steps counts started steps, but never less than one; it agrees with agent_done
      exactly when there was no agent_error and at least one step. */
  lemma TotalStepsIff(notes: seq<Note>)
    requires Accepts(notes)
    ensures notes != [] && notes[|notes| - 1].body.AgentDone?
    ensures notes[|notes| - 1].body.totalSteps == Count(notes, IsStepEnd)
    ensures var started := Count(notes, IsStepStart);
            && TotalSteps(notes) == (if started == 0 then 1 else started)
            && (TotalSteps(notes) == notes[|notes| - 1].body.totalSteps <==>
                  Count(notes, IsError) == 0 && started >= 1)
  {
    DoneIsReconstructible(notes);
    RegistersCount(notes);
    JudgeSound(Initial, notes);
    var front, last := notes[..|notes| - 1], notes[|notes| - 1];
    assert Count(notes, IsStepEnd) == Count(front, IsStepEnd);
  }

  // ---- Costs ----

  predicate IsLlmEnd(b: Body) { b.LlmEnd? }
  function CostOf(b: Body): int { if b.LlmEnd? then b.costMicros else 0 }

  /** What one accepted event adds to tokens and costs. */
  lemma StepCosts(m: Reader, n: Note)
    requires Step(m, n).mode != Rejected
    ensures var m' := Step(m, n);
            && m'.mode != Begin
            && m'.tokensIn == m.tokensIn + InputOf(n.body) && m'.tokensOut == m.tokensOut + OutputOf(n.body)
            && (if m.mode == Begin then n.body.AgentStart? && m'.model == n.body.model else m'.model == m.model)
            && (n.body.LlmEnd? ==> m.mode != Begin)
            && (n.body.LlmEnd? ==>
                  n.body.costMicros == Pricing.Micros(Pricing.Cost(m.model, n.body.inputTokens, n.body.outputTokens)))
  {
  }

  /** The error of the logged costs against the exact cost of the tokens, in units. */
  function CostError(m: Reader, logged: int): int {
    10 * logged - Pricing.Cost(m.model, m.tokensIn, m.tokensOut)
  }

  predicate Near(m: Reader, logged: int, k: nat) {
    && -5 * k <= CostError(m, logged) <= 5 * k
    && (Pricing.WholeDollars(m.model) ==> CostError(m, logged) == 0)
  }

  lemma CallNear(m: Reader, m': Reader, logged: int, k: nat, input: int, output: int)
    requires Near(m, logged, k) && m'.model == m.model
    requires m'.tokensIn == m.tokensIn + input && m'.tokensOut == m.tokensOut + output
    ensures Near(m', logged + Pricing.Micros(Pricing.Cost(m.model, input, output)), k + 1)
  {
    Pricing.CostAdds(m.model, m.tokensIn, m.tokensOut, input, output);
    Pricing.RoundingError(Pricing.Cost(m.model, input, output));
    if Pricing.WholeDollars(m.model) { Pricing.WholeCost(m.model, input, output); }
    hide Pricing.Cost, Pricing.Micros, Pricing.WholeDollars;
  }

  lemma NearStep(m: Reader, n: Note, logged: int, k: nat)
    requires Step(m, n).mode != Rejected && Near(m, logged, k)
    requires m.mode == Begin ==> m == Initial && logged == 0 && k == 0
    ensures Near(Step(m, n), logged + CostOf(n.body), k + if IsLlmEnd(n.body) then 1 else 0)
  {
    hide Step, Near, Pricing.Micros, Pricing.Cost;
    StepCosts(m, n);
    if n.body.LlmEnd? {
      CallNear(m, Step(m, n), logged, k, n.body.inputTokens, n.body.outputTokens);
    } else if m.mode == Begin {
      NothingNear(Step(m, n));
    } else {
      SameNear(m, Step(m, n), logged, k);
    }
  }

  /** The costs logged so far, against the exact cost of the tokens so far. */
  lemma {:induction false} LoggedCosts(notes: seq<Note>)
    requires Judge(Initial, notes).mode != Rejected
    ensures Near(Judge(Initial, notes), Total(notes, CostOf), Count(notes, IsLlmEnd))
    ensures Judge(Initial, notes).mode == Begin ==> notes == []
    decreases notes
  {
    hide Judge, Step, Near;
    JudgeNone(Initial);
    NothingNear(Initial);
    if notes != [] {
      var front, last := notes[..|notes| - 1], notes[|notes| - 1];
      ReadLast(notes);
      LoggedCosts(front);
      NearStep(Judge(Initial, front), last, Total(front, CostOf), Count(front, IsLlmEnd));
      StepCosts(Judge(Initial, front), last);
    }
  }

  lemma NothingNear(m: Reader)
    requires m.tokensIn == 0 && m.tokensOut == 0
    ensures Near(m, 0, 0)
  {
    Pricing.ZeroCost(m.model);
  }

  lemma SameNear(m: Reader, m': Reader, logged: int, k: nat)
    requires Near(m, logged, k) && m'.model == m.model && m'.tokensIn == m.tokensIn && m'.tokensOut == m.tokensOut
    ensures Near(m', logged, k)
  {
  }

  /** In every accepted trace with k LLM calls, the logged costs add up to within (k + 1) / 2
      micro-dollars of the reported total, and to exactly the total for models priced in whole
      dollars per million tokens. */
  lemma CostDrift(notes: seq<Note>)
    requires Accepts(notes)
    ensures |notes| >= 2 && notes[0].body.AgentStart? && notes[|notes| - 1].body.AgentDone?
    ensures var drift := Total(notes, CostOf) - notes[|notes| - 1].body.totalCostMicros;
            var k := Count(notes, IsLlmEnd);
            && -(k + 1) <= 2 * drift <= k + 1
            && (Pricing.WholeDollars(notes[0].body.model) ==> drift == 0)
  {
    DoneIsReconstructible(notes);
    LoggedCosts(notes);
    ReaderRecalls(notes);
    var m, done := Judge(Initial, notes), notes[|notes| - 1].body;
    var exact := Pricing.Cost(m.model, m.tokensIn, m.tokensOut);
    DoneCost(notes);
    Pricing.RoundingError(exact);
    if Pricing.WholeDollars(m.model) { Pricing.WholeCost(m.model, m.tokensIn, m.tokensOut); }
    hide Judge, Step, Pricing.Cost, Pricing.Micros, Pricing.WholeDollars, Count, Total;
  }

  lemma DoneCost(notes: seq<Note>)
    requires Accepts(notes)
    ensures notes != [] && notes[|notes| - 1].body.AgentDone?
    ensures var m := Judge(Initial, notes);
            notes[|notes| - 1].body.totalCostMicros == Pricing.Micros(Pricing.Cost(m.model, m.tokensIn, m.tokensOut))
  {
    hide Judge, Pricing.Cost, Pricing.Micros;
    JudgeNone(Initial);
    ReadLast(notes);
  }
}
