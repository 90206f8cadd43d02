/** Replaying a recorded trace through a recorded clock. */
module Replay {
  import opened Options
  import Utf8
  import opened Events
  import opened Tools
  import opened Plan
  import opened Trace

  /** The (ts, monotonic_ns) pairs a replay engine takes from a recorded trace. */
  function Pairs(log: seq<Envelope>): seq<(string, int)> {
    seq(|log|, i requires 0 <= i < |log| => (log[i].ts, log[i].monotonicNs))
  }

  /** The latency a replay sees at event `i`: for a tool call that logged a file_mutation, the time
      from that event to its own; zero for everything else, LLM calls included. */
  function SeenLatency(log: seq<Envelope>, i: nat): int
    requires i < |log|
  {
    if log[i].body.ToolEnd? && i > 0 && log[i - 1].body.FileMutation?
    then Latency(log[i - 1].monotonicNs, log[i].monotonicNs) else 0
  }

  /** What a replay logs in place of event `i`. */
  function ReplayedEvent(log: seq<Envelope>, i: nat): Envelope
    requires i < |log|
  {
    log[i].(body := WithLatency(log[i].body, SeenLatency(log, i)))
  }

  function Replayed(log: seq<Envelope>): seq<Envelope> {
    seq(|log|, i requires 0 <= i < |log| => ReplayedEvent(log, i))
  }

  // ---- The shape of plans that makes this work ----

  predicate Untimed(b: Body) {
    WithLatency(b, 0) == b
  }

  /** Mutations are logged only inside a timed tool call, right before its end. */
  predicate Shaped(a: Action) {
    match a
    case Emit(b) => Untimed(b) && !b.FileMutation?
    case Timed(_, mutation, end) =>
      (mutation.Some? ==> mutation.value.FileMutation? && end.ToolEnd?) && !end.FileMutation?
    case _ => true
  }

  predicate AllShaped(actions: seq<Action>) {
    forall i :: 0 <= i < |actions| ==> Shaped(actions[i])
  }

  lemma OneToolShaped(t: Task, env: Env, use: ToolUse, files: Workspace)
    ensures AllShaped(OneTool(t, env, use, files).actions)
  {
    hide Known;
    var e := Call(env.host, use.name, use.input, files);
    CallMutates(env.host, use.name, use.input, files);
    hide Call;
  }

  lemma CallMutates(h: Host, tool: string, args: map<string, Arg>, files: Workspace)
    ensures var e := Call(h, tool, args, files);
            e.mutation.Some? ==> e.mutation.value.FileMutation?
  {
    hide Utf8.Encode, Utf8.Decode, Show, ClampOutcome, ReadTool, EditFile;
    FileReadTidy(h, args, files);
    EditMutates(h, args, files);
    hide EditTool;
  }

  lemma EditMutates(h: Host, args: map<string, Arg>, files: Workspace)
    ensures var e := EditTool(h, args, files);
            e.mutation.Some? ==> e.mutation.value.FileMutation?
  {
    hide Utf8.Encode, Utf8.Decode, Show, IntArg, TextArg;
  }

  lemma {:induction false} AllToolsShaped(t: Task, env: Env, uses: seq<ToolUse>, files: Workspace)
    ensures AllShaped(AllTools(t, env, uses, files).actions)
    decreases uses
  {
    if uses != [] {
      hide OneTool, Shaped;
      OneToolShaped(t, env, uses[0], files);
      AllToolsShaped(t, env, uses[1..], OneTool(t, env, uses[0], files).files);
    }
  }

  lemma TurnShaped(t: Task, env: Env, s: Loop)
    ensures AllShaped(OneTurn(t, env, s).actions)
  {
    var answer := env.client(s.step, RequestOf(t, s.messages));
    if answer.Returns? {
      AllToolsShaped(t, env, answer.value.toolUses, s.files);
    }
    hide AllTools, RequestOf, Charged;
  }

  lemma {:induction false} FromShaped(t: Task, env: Env, s: Loop)
    ensures AllShaped(From(t, env, s))
    ensures From(t, env, s) != [] && From(t, env, s)[|From(t, env, s)| - 1].Emit?
    decreases MaxSteps(t) - s.step
  {
    if s.step < MaxSteps(t) {
      var turn := OneTurn(t, env, s);
      TurnShaped(t, env, s);
      hide OneTurn;
      if turn.signal.Continue? {
        assert turn.next.step == s.step + 1 by { ContinueAdvances(t, env, s); }
        FromShaped(t, env, turn.next);
      }
    }
  }

  lemma ContinueAdvances(t: Task, env: Env, s: Loop)
    requires OneTurn(t, env, s).signal.Continue?
    ensures OneTurn(t, env, s).next.step == s.step + 1
  {
  }

  lemma WholeShaped(t: Task, env: Env, files: Workspace)
    ensures AllShaped(Whole(t, env, files))
    ensures Whole(t, env, files) != [] && Whole(t, env, files)[|Whole(t, env, files)| - 1].Emit?
  {
    FromShaped(t, env, Start(t, files));
    hide From;
  }

  // ---- Recording and replay, side by side ----

  predicate Quiet(log: seq<Envelope>) {
    log == [] || !log[|log| - 1].body.FileMutation?
  }

  /** `v` is where a replay from `pairs` stands when the recording stands at `w`. */
  predicate Mirrors(w: World, v: World, pairs: seq<(string, int)>) {
    && w.clock.Os? && !w.halted && Quiet(w.log)
    && v == World(Recorded(pairs, |w.log|), w.step, Replayed(w.log), w.files, false)
  }

  lemma AppendRecorded(w: World, b: Body)
    requires w.clock.Os? && !w.halted
    ensures var w' := Append(w, b);
            w'.log == w.log + [Envelope(w.step, w'.log[|w.log|].ts, w'.log[|w.log|].monotonicNs, b)]
  {
  }

  /** One more event on both sides, with the latency the replay sees. */
  lemma AppendMirrors(w: World, v: World, pairs: seq<(string, int)>, b: Body, ms: int)
    requires w.clock.Os? && !w.halted
    requires v == World(Recorded(pairs, |w.log|), w.step, Replayed(w.log), w.files, false)
    requires Pairs(Append(w, b).log) <= pairs
    requires ReplayedEvent(Append(w, b).log, |w.log|).body == WithLatency(b, ms)
    ensures var w' := Append(w, b);
            Append(v, WithLatency(b, ms)) == World(Recorded(pairs, |w'.log|), w.step, Replayed(w'.log), w.files, false)
  {
    var w' := Append(w, b);
    var n := |w.log|;
    assert Pairs(w'.log)[n] == pairs[n];
    assert Replayed(w'.log) == Replayed(w.log) + [ReplayedEvent(w'.log, n)];
  }

  /** A replay in step with the recording, except that a mutation may just have been logged. */
  predicate Follows(w: World, v: World, pairs: seq<(string, int)>) {
    && w.clock.Os? && !w.halted
    && v == World(Recorded(pairs, |w.log|), w.step, Replayed(w.log), w.files, false)
  }

  /** The closing event of a timed action, after both second readings. */
  lemma EndMirrors(w: World, v: World, pairs: seq<(string, int)>, end: Body, t0: int, t0': int)
    requires Follows(w, v, pairs) && !end.FileMutation?
    requires var e := WithLatency(end, Latency(t0, Reading(w)));
             && Pairs(Append(Read(w), e).log) <= pairs
             && SeenLatency(Append(Read(w), e).log, |w.log|) == Latency(t0', pairs[|w.log|].1)
    ensures var w' := Append(Read(w), WithLatency(end, Latency(t0, Reading(w))));
            Mirrors(w', Append(Read(v), WithLatency(end, Latency(t0', Reading(v)))), pairs)
  {
    var e := WithLatency(end, Latency(t0, Reading(w)));
    var w' := Append(Read(w), e);
    assert Pairs(w'.log)[|w.log|] == pairs[|w.log|];
    var ms := Latency(t0', pairs[|w.log|].1);
    AppendMirrors(Read(w), Read(v), pairs, e, ms);
    assert WithLatency(e, ms) == WithLatency(end, ms);
  }

  lemma TimedMirrors(w: World, v: World, pairs: seq<(string, int)>, a: Action)
    requires Mirrors(w, v, pairs) && a.Timed? && Shaped(a) && Pairs(Exec1(w, a).log) <= pairs
    ensures Mirrors(Exec1(w, a), Exec1(v, a), pairs)
  {
    var w1, v1 := Performed(Read(w), a.files, a.mutation), Performed(Read(v), a.files, a.mutation);
    var n := |w.log|;
    var e := WithLatency(a.end, Latency(Reading(w), Reading(w1)));
    var w' := Append(Read(w1), e);
    assert w' == Exec1(w, a);
    assert Pairs(w'.log)[n] == pairs[n];
    if a.mutation.Some? {
      MutationMirrors(w, v, pairs, a);
      assert Pairs(w'.log)[n + 1] == pairs[n + 1];
      assert SeenLatency(w'.log, n + 1) == Latency(pairs[n].1, pairs[n + 1].1);
    }
    hide Append, Replayed;
    EndMirrors(w1, v1, pairs, a.end, Reading(w), Reading(v));
  }

  lemma MutationMirrors(w: World, v: World, pairs: seq<(string, int)>, a: Action)
    requires Mirrors(w, v, pairs) && a.Timed? && Shaped(a) && Pairs(Exec1(w, a).log) <= pairs && a.mutation.Some?
    ensures Follows(Performed(Read(w), a.files, a.mutation), Performed(Read(v), a.files, a.mutation), pairs)
  {
    var w0, v0 := Store(Read(w), a.files), Store(Read(v), a.files);
    AppendRecorded(w0, a.mutation.value);
    var w1 := Append(w0, a.mutation.value);
    assert w1.log <= Exec1(w, a).log;
    assert Pairs(w1.log) <= Pairs(Exec1(w, a).log);
    assert Pairs(w1.log)[|w.log|] == pairs[|w.log|];
    AppendMirrors(w0, v0, pairs, a.mutation.value, 0);
  }

  lemma Exec1Mirrors(w: World, v: World, pairs: seq<(string, int)>, a: Action)
    requires Mirrors(w, v, pairs) && Shaped(a) && Pairs(Exec1(w, a).log) <= pairs
    requires a.Peek? ==> |w.log| < |pairs|
    ensures Mirrors(Exec1(w, a), Exec1(v, a), pairs)
  {
    match a {
      case Timed(_, _, _) => TimedMirrors(w, v, pairs, a);
      case Emit(b) => AppendMirrors(w, v, pairs, b, 0);
      case _ =>
    }
  }

  lemma {:induction false} ExecMirrors(w: World, v: World, pairs: seq<(string, int)>, actions: seq<Action>)
    requires Mirrors(w, v, pairs) && AllShaped(actions) && Pairs(Exec(w, actions).log) <= pairs
    requires actions == [] || actions[|actions| - 1].Emit?
    ensures Mirrors(Exec(w, actions), Exec(v, actions), pairs)
    decreases actions
  {
    if actions != [] {
      var w1, rest := Exec1(w, actions[0]), actions[1..];
      OsNeverHalts(w, [actions[0]]);
      ExecOne(w, actions[0]);
      ExecLogs(w1, rest);
      assert Pairs(w1.log) <= Pairs(Exec(w, actions).log);
      if actions[0].Peek? { LastIsLogged(w1, rest); }
      Exec1Mirrors(w, v, pairs, actions[0]);
      hide Exec1, Mirrors;
      ExecMirrors(w1, Exec1(v, actions[0]), pairs, rest);
    }
  }

  /** A plan that ends in an emission logs at least one event. */
  lemma {:induction false} LastIsNoted(actions: seq<Action>, step: int)
    requires actions != [] && actions[|actions| - 1].Emit?
    ensures Notes(actions, step) != []
    decreases actions
  {
    if |actions| > 1 {
      LastIsNoted(actions[1..], StepAfter(actions[0], step));
    }
  }

  lemma LastIsLogged(w: World, actions: seq<Action>)
    requires w.clock.Os? && !w.halted && actions != [] && actions[|actions| - 1].Emit?
    ensures |Exec(w, actions).log| > |w.log|
  {
    LastIsNoted(actions, w.step);
    ExecLogs(w, actions);
    OsNeverHalts(w, actions);
    hide Exec, Notes;
  }

  /** Replay: with the same task, model, tools and files, a clock that holds the recorded pairs
      (and possibly more) is never read out of range, ends at the number of recorded events, and
      reproduces the trace event by event: step, ts, monotonic_ns, type and data, the latency
      being the one given by Replayed. The files end up the same. */
  lemma ReplayReproduces(t: Task, env: Env, files: Workspace, clock: Clock, extra: seq<(string, int)>)
    requires clock.Os?
    ensures var rec := Exec(Fresh(clock, files), Whole(t, env, files));
            var rep := Exec(Fresh(Recorded(Pairs(rec.log) + extra, 0), files), Whole(t, env, files));
            && !rec.halted && !rep.halted
            && rep.clock == Recorded(Pairs(rec.log) + extra, |rec.log|)
            && rep.log == Replayed(rec.log)
            && rep.files == rec.files
  {
    var whole := Whole(t, env, files);
    var w := Fresh(clock, files);
    var pairs := Pairs(Exec(w, whole).log) + extra;
    WholeShaped(t, env, files);
    hide Whole, Exec;
    assert Mirrors(w, Fresh(Recorded(pairs, 0), files), pairs);
    ExecMirrors(w, Fresh(Recorded(pairs, 0), files), pairs, whole);
  }

  /** Every recorded latency is one a replay can see. */
  predicate LatenciesVisible(log: seq<Envelope>) {
    forall i :: 0 <= i < |log| ==>
      && (log[i].body.LlmEnd? ==> log[i].body.latencyMs == 0)
      && (log[i].body.ToolEnd? ==> log[i].body.latencyMs == SeenLatency(log, i))
  }

  /** A replayed trace is the recorded one to the last digit exactly when all recorded latencies
      are visible to a replay: LLM calls took no measurable time, and neither did tool calls,
      except between a file_mutation and the end of its call. */
  lemma ExactReplayIff(t: Task, env: Env, files: Workspace, clock: Clock)
    requires clock.Os?
    ensures var rec := Exec(Fresh(clock, files), Whole(t, env, files));
            var rep := Exec(Fresh(Recorded(Pairs(rec.log), 0), files), Whole(t, env, files));
            rep.log == rec.log <==> LatenciesVisible(rec.log)
  {
    var log := Exec(Fresh(clock, files), Whole(t, env, files)).log;
    ReplayReproduces(t, env, files, clock, []);
    assert Pairs(log) + [] == Pairs(log);
    hide Exec, Whole;
    ReplayedIsSame(log);
  }

  lemma ReplayedIsSame(log: seq<Envelope>)
    ensures Replayed(log) == log <==> LatenciesVisible(log)
  {
    forall i | 0 <= i < |log|
      ensures Replayed(log)[i] == log[i] <==>
                && (log[i].body.LlmEnd? ==> log[i].body.latencyMs == 0)
                && (log[i].body.ToolEnd? ==> log[i].body.latencyMs == SeenLatency(log, i))
    {
    }
    assert Replayed(log) == log <==> forall i :: 0 <= i < |log| ==> Replayed(log)[i] == log[i];
  }

  /** The state at the end of the first LLM call, where the model answers it. */
  lemma FirstAnswer(t: Task, env: Env, files: Workspace, clock: Clock)
    requires clock.Os? && MaxSteps(t) > 0 && env.client(0, RequestOf(t, [Prompt(t.prompt)])).Returns?
    ensures var w := Append(Fresh(clock, files), StartEvent(t));
            var w3 := Asked(t, env, Start(t, files), w);
            && !w3.halted && |w3.log| == 4 && w3.log[3].body.LlmEnd?
            && w3.log[3].body.latencyMs == Latency(clock.nsAt(clock.count + 6), clock.nsAt(clock.count + 7))
  {
    hide RequestOf, Known;
  }

  lemma FirstAnswerIsLogged(t: Task, env: Env, files: Workspace, clock: Clock)
    requires clock.Os? && MaxSteps(t) > 0 && env.client(0, RequestOf(t, [Prompt(t.prompt)])).Returns?
    ensures var log := Exec(Fresh(clock, files), Whole(t, env, files)).log;
            && |log| >= 4 && log[3].body.LlmEnd?
            && log[3].body.latencyMs == Latency(clock.nsAt(clock.count + 6), clock.nsAt(clock.count + 7))
  {
    hide Exec, Whole, From, Append, Asked, AfterAsk, Notes;
    var s, w := Start(t, files), Append(Fresh(clock, files), StartEvent(t));
    WholeExec(t, env, files, Fresh(clock, files));
    FirstAnswer(t, env, files, clock);
    StartLogged(clock, files, StartEvent(t));
    ExecFromTurn(t, env, s, w);
    TurnExec(t, env, s, w);
    var w3 := Asked(t, env, s, w);
    ExecLogs(w3, AfterAsk(t, env, s));
    assert w3.log <= Exec(w, OneTurn(t, env, s).actions).log <= Exec(w, From(t, env, s)).log;
  }

  lemma StartLogged(clock: Clock, files: Workspace, b: Body)
    requires clock.Os?
    ensures !Append(Fresh(clock, files), b).halted && Append(Fresh(clock, files), b).clock.Os?
  {
  }

  /** What the first turn logs stays logged. */
  lemma ExecFromTurn(t: Task, env: Env, s: Loop, w: World)
    requires s.step < MaxSteps(t) && w.clock.Os? && !w.halted
    ensures Exec(w, OneTurn(t, env, s).actions).log <= Exec(w, From(t, env, s)).log
  {
    hide Exec, OneTurn, Notes, DoneEvent;
    var turn := OneTurn(t, env, s);
    var w1 := Exec(w, turn.actions);
    OsNeverHalts(w, turn.actions);
    FromExec(t, env, s, w);
    match turn.signal {
      case Continue => ExecLogs(w1, From(t, env, turn.next));
      case Finish(o) => ExecLogs(w1, [Emit(DoneEvent(turn.next, o))]);
      case Crash(kind, message) => ExecLogs(w1, [Emit(AgentError(kind, message)), Emit(DoneEvent(s, "failed"))]);
    }
  }

  /** Latencies do get lost: whenever the model answers the first call, and between the two
      readings around it at least a millisecond passes, the recorded event has that latency
      and the replayed one has latency 0. */
  lemma ReplayLosesLatency(t: Task, env: Env, files: Workspace, clock: Clock)
    requires clock.Os? && MaxSteps(t) > 0 && env.client(0, RequestOf(t, [Prompt(t.prompt)])).Returns?
    requires clock.nsAt(clock.count + 6) + 1_000_000 <= clock.nsAt(clock.count + 7)
    ensures var rec := Exec(Fresh(clock, files), Whole(t, env, files));
            var rep := Exec(Fresh(Recorded(Pairs(rec.log), 0), files), Whole(t, env, files));
            && |rec.log| == |rep.log| >= 4 && rec.log[3].body.LlmEnd? && rep.log[3].body.LlmEnd?
            && rec.log[3].body.latencyMs >= 1 && rep.log[3].body.latencyMs == 0
            && rep.log != rec.log
  {
    var log := Exec(Fresh(clock, files), Whole(t, env, files)).log;
    ReplayReproduces(t, env, files, clock, []);
    assert Pairs(log) + [] == Pairs(log);
    FirstAnswerIsLogged(t, env, files, clock);
    hide Exec, Whole;
    assert Replayed(log)[3] == ReplayedEvent(log, 3);
  }

  const ExampleTask := Task("t", "hello", "", "anthropic", "claude", map[], [], None)
  const MillisecondClock := Os(n => "", n => n * 1_000_000, 0)

  /** A run in which it happens: one answer, and a clock that moves a millisecond per reading. */
  lemma LatencyLost(env: Env, files: Workspace)
    requires env.client == ((i, r) => Returns(Response(["done"], [], "end_turn", 1, 1)))
    ensures var rec := Exec(Fresh(MillisecondClock, files), Whole(ExampleTask, env, files));
            var rep := Exec(Fresh(Recorded(Pairs(rec.log), 0), files), Whole(ExampleTask, env, files));
            rep.log != rec.log
  {
    ReplayLosesLatency(ExampleTask, env, files, MillisecondClock);
  }

  // ---- Recordings of any length ----

  function Min(a: nat, b: nat): nat {
    if a < b then a else b
  }

  /** Where a recorded clock stands after as many events as it still had pairs for. */
  ghost predicate Spent(w: World, w': World, n: nat, halts: bool)
    requires w.clock.Recorded? && w.clock.idx <= |w.clock.pairs|
  {
    var left := |w.clock.pairs| - w.clock.idx;
    && |w'.log| == |w.log| + Min(n, left)
    && w'.clock == w.clock.(idx := w.clock.idx + Min(n, left))
    && w'.halted == halts
  }

  lemma AppendSpends(w: World, b: Body)
    requires !w.halted && w.clock.Recorded? && w.clock.idx <= |w.clock.pairs|
    ensures Spent(w, Append(w, b), 1, |w.clock.pairs| == w.clock.idx)
  {
  }

  lemma TimedSpends(w: World, a: Action)
    requires !w.halted && w.clock.Recorded? && w.clock.idx <= |w.clock.pairs| && a.Timed?
    ensures var k, left := |Notes1(a, w.step)|, |w.clock.pairs| - w.clock.idx;
            Spent(w, Exec1(w, a), k, left < k)
  {
    if Readable(w.clock) {
      var w0 := Store(Read(w), a.files);
      var w1 := Performed(Read(w), a.files, a.mutation);
      if a.mutation.Some? { AppendSpends(w0, a.mutation.value); }
      var w2 := Read(w1);
      if !w2.halted { AppendSpends(w2, WithLatency(a.end, Latency(Reading(w), Reading(w1)))); }
      hide Append;
    }
  }

  lemma Recorded1(w: World, a: Action)
    requires !w.halted && w.clock.Recorded? && w.clock.idx <= |w.clock.pairs|
    ensures var k, left := |Notes1(a, w.step)|, |w.clock.pairs| - w.clock.idx;
            Spent(w, Exec1(w, a), k, left < k || (a.Peek? && left == 0))
  {
    match a {
      case Timed(_, _, _) => TimedSpends(w, a);
      case Emit(b) => AppendSpends(w, b);
      case _ =>
    }
  }

  lemma {:induction false} RecordedCount(w: World, actions: seq<Action>)
    requires !w.halted && w.clock.Recorded? && w.clock.idx <= |w.clock.pairs|
    requires actions != [] && actions[|actions| - 1].Emit?
    ensures var n, left, w' := |Notes(actions, w.step)|, |w.clock.pairs| - w.clock.idx, Exec(w, actions);
            && |w'.log| == |w.log| + Min(n, left)
            && w'.clock == w.clock.(idx := w.clock.idx + Min(n, left))
            && (w'.halted <==> left < n)
    decreases actions
  {
    var w1, rest := Exec1(w, actions[0]), actions[1..];
    Recorded1(w, actions[0]);
    Exec1Logs(w, actions[0]);
    hide Exec1, Notes1, Logs;
    if rest == [] {
      assert Notes(actions, w.step) == Notes1(actions[0], w.step) + [];
      assert Exec(w, actions) == w1;
    } else {
      LastIsNoted(rest, StepAfter(actions[0], w.step));
      if w1.halted {
        HaltedStays(w1, rest);
      } else {
        RecordedCount(w1, rest);
      }
    }
  }

  /** A clock with any recording: the run completes exactly when the recording is long enough;
      otherwise it stops with one event logged per recorded pair. Either way what is logged is
      the run's own story, as far as it got. */
  lemma ReplayCompletesIff(t: Task, env: Env, files: Workspace, pairs: seq<(string, int)>)
    ensures var rep := Exec(Fresh(Recorded(pairs, 0), files), Whole(t, env, files));
            var story := Story(t, env, files);
            && (rep.halted <==> |pairs| < |story|)
            && rep.clock.Recorded? && rep.clock.idx == |rep.log| == Min(|pairs|, |story|)
            && EraseAll(rep.log) == story[..|rep.log|]
  {
    var w := Fresh(Recorded(pairs, 0), files);
    WholeShaped(t, env, files);
    hide Whole, Exec, Notes;
    RecordedCount(w, Whole(t, env, files));
    ExecLogs(w, Whole(t, env, files));
    assert EraseAll([]) == [];
  }

  // ---- Replaying a replay ----

  /** The stamps logged so far are the recorded pairs, in order. */
  predicate Stamped(w: World) {
    w.clock.Recorded? && w.clock.idx == |w.log| <= |w.clock.pairs| && Pairs(w.log) == w.clock.pairs[..|w.log|]
  }

  lemma AppendStamped(w: World, b: Body)
    requires Stamped(w)
    ensures Stamped(Append(w, b)) && Append(w, b).clock.pairs == w.clock.pairs
  {
    var w' := Append(w, b);
    if w'.log != w.log {
      var n := |w.log|;
      assert Pairs(w'.log) == Pairs(w.log) + [w.clock.pairs[n]];
    }
  }

  lemma Exec1Stamped(w: World, a: Action)
    requires Stamped(w)
    ensures Stamped(Exec1(w, a)) && Exec1(w, a).clock.pairs == w.clock.pairs
  {
    hide Append;
    match a {
      case Emit(b) => AppendStamped(w, b);
      case Timed(files, mutation, end) =>
        var w0 := Store(Read(w), files);
        if mutation.Some? { AppendStamped(w0, mutation.value); }
        var w1 := Performed(Read(w), files, mutation);
        AppendStamped(Read(w1), WithLatency(end, Latency(Reading(w), Reading(w1))));
      case _ =>
    }
  }

  lemma {:induction false} ExecStamped(w: World, actions: seq<Action>)
    requires Stamped(w)
    ensures Stamped(Exec(w, actions)) && Exec(w, actions).clock.pairs == w.clock.pairs
    decreases actions
  {
    if actions != [] {
      Exec1Stamped(w, actions[0]);
      hide Exec1, Stamped;
      ExecStamped(Exec1(w, actions[0]), actions[1..]);
    }
  }

  /** The same state with a longer recording. */
  function Longer(w: World, extra: seq<(string, int)>): World
    requires w.clock.Recorded?
  {
    w.(clock := w.clock.(pairs := w.clock.pairs + extra))
  }

  lemma AppendLonger(w: World, b: Body, extra: seq<(string, int)>)
    requires w.clock.Recorded?
    ensures Append(w, b).clock.Recorded? && (w.halted ==> Append(w, b).halted)
    ensures !Append(w, b).halted ==> Append(Longer(w, extra), b) == Longer(Append(w, b), extra)
  {
  }

  lemma ReadLonger(w: World, extra: seq<(string, int)>)
    requires w.clock.Recorded?
    ensures Read(w).clock.Recorded? && (w.halted ==> Read(w).halted)
    ensures !Read(w).halted ==> Read(Longer(w, extra)) == Longer(Read(w), extra) && Reading(Longer(w, extra)) == Reading(w)
  {
  }

  lemma PerformLonger(w: World, files: Option<Workspace>, mutation: Option<Body>, extra: seq<(string, int)>)
    requires w.clock.Recorded?
    ensures var w' := Performed(w, files, mutation);
            && w'.clock.Recorded? && (w.halted ==> w'.halted)
            && (!w'.halted ==> Performed(Longer(w, extra), files, mutation) == Longer(w', extra))
  {
    hide Append;
    if mutation.Some? { AppendLonger(Store(w, files), mutation.value, extra); }
  }

  lemma Exec1Longer(w: World, a: Action, extra: seq<(string, int)>)
    requires w.clock.Recorded? && !Exec1(w, a).halted
    ensures Exec1(w, a).clock.Recorded? && Exec1(Longer(w, extra), a) == Longer(Exec1(w, a), extra)
  {
    hide Append, Read, Performed, Reading;
    match a {
      case SetStep(_) =>
      case Emit(b) => AppendLonger(w, b, extra);
      case Peek => ReadLonger(w, extra);
      case Timed(files, mutation, end) =>
        var w1 := Performed(Read(w), files, mutation);
        ReadLonger(w, extra);
        PerformLonger(Read(w), files, mutation, extra);
        ReadLonger(w1, extra);
        AppendLonger(Read(w1), WithLatency(end, Latency(Reading(w), Reading(w1))), extra);
        hide Longer;
    }
  }

  /** A run that does not come to the end of its recording does not notice a longer one. */
  lemma {:induction false} ExecLonger(w: World, actions: seq<Action>, extra: seq<(string, int)>)
    requires w.clock.Recorded? && !Exec(w, actions).halted
    ensures Exec(w, actions).clock.Recorded? && Exec(Longer(w, extra), actions) == Longer(Exec(w, actions), extra)
    decreases actions
  {
    if actions != [] {
      var w1 := Exec1(w, actions[0]);
      if w1.halted { HaltedStays(w1, actions[1..]); }
      Exec1Longer(w, actions[0], extra);
      hide Exec1;
      ExecLonger(w1, actions[1..], extra);
    }
  }

  /** Replaying the trace of any replay, complete or cut short, gives that trace again, to the
      last digit, with the same files and the same end. */
  lemma ReplayIdempotent(t: Task, env: Env, files: Workspace, pairs: seq<(string, int)>)
    ensures var rep := Exec(Fresh(Recorded(pairs, 0), files), Whole(t, env, files));
            var again := Exec(Fresh(Recorded(Pairs(rep.log), 0), files), Whole(t, env, files));
            again.log == rep.log && again.files == rep.files && again.halted == rep.halted
  {
    hide Exec, Whole;
    var whole := Whole(t, env, files);
    var rep := Exec(Fresh(Recorded(pairs, 0), files), whole);
    assert Pairs(rep.log) == pairs[..|rep.log|] by { ExecStamped(Fresh(Recorded(pairs, 0), files), whole); }
    ReplayCompletesIff(t, env, files, pairs);
    ReplayCompletesIff(t, env, files, Pairs(rep.log));
    var short := Fresh(Recorded(Pairs(rep.log), 0), files);
    if rep.halted {
      assert pairs[..|rep.log|] == pairs;
    } else {
      assert Pairs(rep.log) + pairs[|rep.log|..] == pairs;
      ExecLonger(short, whole, pairs[|rep.log|..]);
    }
  }
}
