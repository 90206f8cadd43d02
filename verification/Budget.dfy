/** Time in a trace: with a clock that never runs backwards, event stamps are in order and all
    logged latencies together fit between the first event and the last. */
module Budget {
  import opened Events
  import opened Tools
  import opened Plan
  import opened Replay
  import opened Trace

  /** The clock never runs backwards. */
  ghost predicate Steady(c: Clock) {
    match c
    case Os(_, nsAt, _) => forall i, j :: i <= j ==> nsAt(i) <= nsAt(j)
    case Recorded(pairs, _) => forall i, j :: 0 <= i <= j < |pairs| ==> pairs[i].1 <= pairs[j].1
  }

  function LatencyOf(b: Body): int {
    match b
    case LlmEnd(_, _, _, _, _, _, ms) => ms
    case ToolEnd(_, _, _, _, ms) => ms
    case _ => 0
  }

  function TotalLatency(log: seq<Envelope>): int {
    if log == [] then 0 else TotalLatency(log[..|log| - 1]) + LatencyOf(log[|log| - 1].body)
  }

  predicate InOrder(log: seq<Envelope>) {
    forall i, j :: 0 <= i <= j < |log| ==> log[i].monotonicNs <= log[j].monotonicNs
  }

  /** All latencies so far, counted from the first event, end no later than `now`. */
  predicate SpentBy(log: seq<Envelope>, now: int) {
    log != [] ==> log[0].monotonicNs + 1_000_000 * TotalLatency(log) <= now && log[|log| - 1].monotonicNs <= now
  }

  /** All latencies together fit between the first event and the last. */
  predicate FitsSpan(log: seq<Envelope>) {
    log != [] && 1_000_000 * TotalLatency(log) <= log[|log| - 1].monotonicNs - log[0].monotonicNs
  }

  /** What holds between actions: stamps in order, and the budget kept up to the next reading. */
  ghost predicate OnBudget(w: World) {
    && Steady(w.clock)
    && InOrder(w.log)
    && (!w.halted && Readable(w.clock) ==> SpentBy(w.log, NsOf(w.clock)))
  }

  lemma ClockMovesOn(c: Clock)
    requires Steady(c) && Readable(c)
    ensures Steady(AfterRead(c)) && Steady(AfterTick(c)) && Readable(AfterRead(c))
    ensures NsOf(c) <= NsOf(AfterRead(c))
    ensures Readable(AfterTick(c)) ==> NsOf(c) <= NsOf(AfterTick(c))
  {
  }

  lemma ReadOnBudget(w: World)
    requires OnBudget(w)
    ensures OnBudget(Read(w))
    ensures !Read(w).halted ==> Reading(w) <= Reading(Read(w))
  {
    if !w.halted && Readable(w.clock) { ClockMovesOn(w.clock); }
    hide Steady;
  }

  lemma TotalSnoc(log: seq<Envelope>, e: Envelope)
    ensures TotalLatency(log + [e]) == TotalLatency(log) + LatencyOf(e.body)
  {
    assert (log + [e])[..|log|] == log;
  }

  /** Logging an event whose latency is already paid for. */
  lemma AppendOnBudget(w: World, b: Body)
    requires OnBudget(w)
    requires !w.halted && Readable(w.clock) ==>
               if w.log == [] then LatencyOf(b) == 0
               else w.log[0].monotonicNs + 1_000_000 * (TotalLatency(w.log) + LatencyOf(b)) <= NsOf(w.clock)
    ensures OnBudget(Append(w, b))
    ensures !Append(w, b).halted || FitsSpan(w.log) ==> FitsSpan(Append(w, b).log)
  {
    if !w.halted && Readable(w.clock) {
      var w' := Append(w, b);
      var c1 := AfterRead(w.clock);
      var e := w'.log[|w.log|];
      ClockMovesOn(w.clock);
      ClockMovesOn(c1);
      ClockMovesOn(AfterRead(c1));
      TotalSnoc(w.log, e);
      hide Steady, TotalLatency;
      assert w'.log == w.log + [e];
    }
  }

  /** Performing a tool's effect between the readings costs no latency. */
  lemma PerformOnBudget(w: World, a: Action)
    requires OnBudget(w) && !w.halted && a.Timed? && Shaped(a) && FitsSpan(w.log)
    ensures var w1 := Performed(Read(w), a.files, a.mutation);
            && OnBudget(w1) && FitsSpan(w1.log)
            && (!w1.halted ==> w1.log != [] && w1.log[0] == w.log[0] && TotalLatency(w1.log) == TotalLatency(w.log))
  {
    var r := Read(w);
    ReadOnBudget(w);
    if !r.halted {
      var w0 := Store(r, a.files);
      assert OnBudget(w0);
      if a.mutation.Some? {
        AppendOnBudget(w0, a.mutation.value);
        var w1 := Append(w0, a.mutation.value);
        if !w1.halted { TotalSnoc(w.log, w1.log[|w.log|]); }
      }
    }
    hide Steady, TotalLatency;
  }

  lemma TimedOnBudget(w: World, a: Action)
    requires OnBudget(w) && !w.halted && a.Timed? && Shaped(a) && FitsSpan(w.log)
    ensures OnBudget(Exec1(w, a)) && FitsSpan(Exec1(w, a).log)
  {
    hide OnBudget, TotalLatency, Append, Performed;
    var w1 := Performed(Read(w), a.files, a.mutation);
    var w2, ms := Read(w1), Latency(Reading(w), Reading(w1));
    PerformOnBudget(w, a);
    ReadOnBudget(w1);
    if w1.halted || !Readable(w1.clock) {
      assert w2.halted;
      StaysHalted(w2, WithLatency(a.end, ms));
    } else {
      FirstReading(w, a);
      StartsReadable(w, a);
      BudgetNow(w);
      assert 1_000_000 * ms <= Reading(w1) - Reading(w);
      assert LatencyOf(WithLatency(a.end, ms)) <= ms && ms >= 0;
      AppendOnBudget(w2, WithLatency(a.end, ms));
    }
  }

  lemma StartsReadable(w: World, a: Action)
    requires !w.halted && a.Timed? && !Performed(Read(w), a.files, a.mutation).halted
    ensures Readable(w.clock)
  {
  }

  lemma BudgetNow(w: World)
    requires OnBudget(w) && !w.halted && Readable(w.clock)
    ensures SpentBy(w.log, Reading(w))
  {
  }

  /** The second reading of a timed action is no earlier than the first. */
  lemma FirstReading(w: World, a: Action)
    requires OnBudget(w) && !w.halted && a.Timed?
    ensures var w1 := Performed(Read(w), a.files, a.mutation);
            !w1.halted && Readable(w1.clock) ==> Reading(w) <= Reading(w1)
  {
    if Readable(w.clock) {
      var c := AfterRead(w.clock);
      ClockMovesOn(w.clock);
      ClockMovesOn(c);
      ClockMovesOn(AfterRead(c));
      ClockMovesOn(AfterRead(AfterRead(c)));
    }
    hide Steady;
  }

  lemma Exec1OnBudget(w: World, a: Action)
    requires OnBudget(w) && !w.halted && Shaped(a) && FitsSpan(w.log)
    ensures OnBudget(Exec1(w, a)) && FitsSpan(Exec1(w, a).log)
  {
    match a {
      case Timed(_, _, _) => TimedOnBudget(w, a);
      case Emit(b) => AppendOnBudget(w, b);
      case Peek => ReadOnBudget(w);
      case SetStep(_) =>
    }
  }

  lemma {:induction false} ExecOnBudget(w: World, actions: seq<Action>)
    requires OnBudget(w) && AllShaped(actions) && FitsSpan(w.log)
    ensures OnBudget(Exec(w, actions)) && FitsSpan(Exec(w, actions).log)
    decreases actions
  {
    if w.halted {
      HaltedStays(w, actions);
    } else if actions != [] {
      Exec1OnBudget(w, actions[0]);
      hide Exec1, OnBudget, FitsSpan;
      ExecOnBudget(Exec1(w, actions[0]), actions[1..]);
    }
  }

  /** The disjointness of timed intervals, over a whole run: whichever steady clock is used, and
      wherever it gives out, the stamps of the trace are in order, and the sum of all latencies
      (in milliseconds, each rounded down) is at most the span from agent_start to the last
      event, which is agent_done if the run completes. */
  lemma LatenciesFitTheSpan(t: Task, env: Env, files: Workspace, clock: Clock)
    requires Steady(clock)
    ensures var w := Exec(Fresh(clock, files), Whole(t, env, files));
            InOrder(w.log) && (w.log != [] ==> FitsSpan(w.log))
  {
    var w0 := Fresh(clock, files);
    var w1 := Append(w0.(step := 0), StartEvent(t));
    WholeExec(t, env, files, w0);
    FromShaped(t, env, Start(t, files));
    AppendOnBudget(w0, StartEvent(t));
    assert w0.(step := 0) == w0;
    assert w1.halted ==> w1.log == [];
    hide From, Whole, Exec, Shaped, Append;
    if !w1.halted {
      ExecOnBudget(w1, From(t, env, Start(t, files)));
    }
  }
}
