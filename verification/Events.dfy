/** Trace events, the two clocks, and the append-only event writer. */
module Events {
  import opened Utf8

  /** Regular files by resolved workspace path. */
  type Workspace = map<string, seq<byte>>

  datatype Arg = Text(s: string) | Number(i: int) | Flag(b: bool) | OtherJson(json: string)

  datatype Body =
    | AgentStart(taskId: string, prompt: string, provider: string, model: string, tools: seq<string>, maxSteps: int)
    | StepStart(index: int)
    | LlmStart(provider: string, model: string, requestHash: string, messagesCount: nat, params: map<string, string>)
    | LlmEnd(requestHash: string, responseHash: string, inputTokens: int, outputTokens: int, stopReason: string,
             costMicros: int, latencyMs: int)
    | ToolStart(tool: string, args: map<string, Arg>, callId: string)
    | ToolEnd(callId: string, result: string, truncated: bool, exitCode: int, latencyMs: int)
    | FileMutation(path: string, operation: string, sizeBefore: nat, sizeAfter: nat, hashAfter: string)
    | StepEnd(index: int)
    | AgentError(kind: string, message: string)
    | AgentDone(outcome: string, totalSteps: int, totalCostMicros: int, totalInputTokens: int, totalOutputTokens: int)

  datatype Envelope = Envelope(step: int, ts: string, monotonicNs: int, body: Body)

  /** The same event with the given latency; only the two timed events carry one. */
  function WithLatency(b: Body, ms: int): Body {
    match b
    case LlmEnd(request, response, input, output, stop, cost, _) =>
      LlmEnd(request, response, input, output, stop, cost, ms)
    case ToolEnd(id, result, truncated, exitCode, _) => ToolEnd(id, result, truncated, exitCode, ms)
    case _ => b
  }

  // ---- Clocks ----

  /** `Os` answers the n-th reading with the n-th value of the environment; `Recorded` answers
      with the pair at its index and moves only on `tick`. */
  datatype Clock =
    | Os(isoAt: nat -> string, nsAt: nat -> int, count: nat)
    | Recorded(pairs: seq<(string, int)>, idx: nat)

  /** False where a recorded clock raises IndexError. */
  predicate Readable(c: Clock) {
    c.Recorded? ==> c.idx < |c.pairs|
  }

  function IsoOf(c: Clock): string
    requires Readable(c)
  {
    if c.Os? then c.isoAt(c.count) else c.pairs[c.idx].0
  }

  function NsOf(c: Clock): int
    requires Readable(c)
  {
    if c.Os? then c.nsAt(c.count) else c.pairs[c.idx].1
  }

  /** After one reading. */
  function AfterRead(c: Clock): Clock {
    if c.Os? then c.(count := c.count + 1) else c
  }

  /** After `tick`, which the operating-system clock does not have. */
  function AfterTick(c: Clock): Clock {
    if c.Recorded? then c.(idx := c.idx + 1) else c
  }

  function Latency(t0: int, t1: int): int {
    if t1 - t0 < 0 then 0 else (t1 - t0) / 1_000_000
  }

  /** The whole milliseconds between two readings; none if time seems to run backwards. */
  lemma LatencyExact(t0: int, t1: int)
    ensures var ms := Latency(t0, t1);
            if t0 <= t1 then ms * 1_000_000 <= t1 - t0 < (ms + 1) * 1_000_000 else ms == 0
  {
  }

  // ---- The writer, as a function on values ----

  /** What the loop acts upon. `halted` records that a clock reading raised. */
  datatype World = World(clock: Clock, step: int, log: seq<Envelope>, files: Workspace, halted: bool)

  function Read(w: World): World {
    if w.halted then w
    else if !Readable(w.clock) then w.(halted := true)
    else w.(clock := AfterRead(w.clock))
  }

  function Append(w: World, b: Body): World {
    if w.halted then w
    else if !Readable(w.clock) then w.(halted := true)
    else
      var afterIso := AfterRead(w.clock);
      var e := Envelope(w.step, IsoOf(w.clock), NsOf(afterIso), b);
      w.(clock := AfterTick(AfterRead(afterIso)), log := w.log + [e])
  }

  /** An event gets two readings of the clock, first the time of day and then the monotonic one; a
      recorded clock answers both from one pair and moves on to the next. */
  lemma EventStamps(w: World, b: Body)
    requires !w.halted
    ensures var w', c := Append(w, b), w.clock;
            match c
            case Os(isoAt, nsAt, k) =>
              w' == w.(clock := Os(isoAt, nsAt, k + 2), log := w.log + [Envelope(w.step, isoAt(k), nsAt(k + 1), b)])
            case Recorded(pairs, i) =>
              if i < |pairs|
              then w' == w.(clock := Recorded(pairs, i + 1), log := w.log + [Envelope(w.step, pairs[i].0, pairs[i].1, b)])
              else w' == w.(halted := true)
  {
  }

  // ---- The writer and the clock, as objects ----

  /** A value, or the exception that was raised instead. */
  datatype Outcome<+T> = Returns(value: T) | Raises(kind: string, message: string) {
    predicate IsFailure() { Raises? }
    function PropagateFailure<U>(): Outcome<U> requires Raises? { Raises(kind, message) }
    function Extract(): T requires Returns? { value }
  }

  const INDEX_ERROR := "IndexError"
  const INDEX_TEXT := "list index out of range"

  class Ticker {
    var state: Clock

    constructor (clock: Clock)
      ensures state == clock
    {
      state := clock;
    }

    method NowIso() returns (r: Outcome<string>)
      modifies this
      ensures Readable(old(state)) ==> r == Returns(IsoOf(old(state))) && state == AfterRead(old(state))
      ensures !Readable(old(state)) ==> r.Raises? && state == old(state)
    {
      if state.Recorded? {
        if state.idx >= |state.pairs| {
          return Raises(INDEX_ERROR, INDEX_TEXT);
        }
        return Returns(state.pairs[state.idx].0);
      }
      r := Returns(state.isoAt(state.count));
      state := state.(count := state.count + 1);
    }

    method MonotonicNs() returns (r: Outcome<int>)
      modifies this
      ensures Readable(old(state)) ==> r == Returns(NsOf(old(state))) && state == AfterRead(old(state))
      ensures !Readable(old(state)) ==> r.Raises? && state == old(state)
    {
      if state.Recorded? {
        if state.idx >= |state.pairs| {
          return Raises(INDEX_ERROR, INDEX_TEXT);
        }
        return Returns(state.pairs[state.idx].1);
      }
      r := Returns(state.nsAt(state.count));
      state := state.(count := state.count + 1);
    }

    method Tick() returns (r: Outcome<()>)
      modifies this
      ensures Readable(old(state)) ==> r.Returns? && state == AfterTick(old(state))
      ensures !Readable(old(state)) ==> r.Raises? && state == old(state)
    {
      if state.Recorded? {
        if state.idx >= |state.pairs| {
          return Raises("RuntimeError", "ReplayClock exhausted: more events than recorded");
        }
        state := state.(idx := state.idx + 1);
      }
      return Returns(());
    }
  }

  class EventWriter {
    const clock: Ticker
    var step: int
    var log: seq<Envelope>

    constructor (clock: Ticker)
      ensures this.clock == clock && step == 0 && log == []
    {
      this.clock := clock;
      step, log := 0, [];
    }

    /** The state of the writer together with a workspace. */
    ghost function View(files: Workspace, halted: bool): World
      reads this, clock
    {
      World(clock.state, step, log, files, halted)
    }

    method SetStep(k: int)
      modifies this
      ensures step == k && log == old(log)
    {
      step := k;
    }

    method Emit(b: Body) returns (r: Outcome<()>)
      modifies this, clock
      ensures forall files :: View(files, r.Raises?) == Append(old(View(files, false)), b)
    {
      var ts :- clock.NowIso();
      var ns := clock.MonotonicNs();
      log := log + [Envelope(step, ts, ns.value, b)];
      r := clock.Tick();
    }

    method ReadNs() returns (r: Outcome<int>)
      modifies clock
      ensures forall files :: View(files, r.Raises?) == Read(old(View(files, false)))
      ensures r.Returns? ==> Readable(old(clock.state)) && r.value == NsOf(old(clock.state))
    {
      r := clock.MonotonicNs();
    }
  }
}
