/** A trace without its clock values: what a plan logs, whatever the clock says. */
module Trace {
  import opened Options
  import opened Events
  import opened Tools
  import opened Plan

  /** An event without time stamps and latency. */
  datatype Note = Note(step: int, body: Body)

  function Erase(e: Envelope): Note {
    Note(e.step, WithLatency(e.body, 0))
  }

  function EraseAll(log: seq<Envelope>): seq<Note> {
    seq(|log|, i requires 0 <= i < |log| => Erase(log[i]))
  }

  /** The events one action logs. */
  function Notes1(a: Action, step: int): seq<Note> {
    match a
    case Emit(b) => [Note(step, WithLatency(b, 0))]
    case Timed(_, mutation, end) =>
      (if mutation.Some? then [Note(step, WithLatency(mutation.value, 0))] else []) + [Note(step, WithLatency(end, 0))]
    case _ => []
  }

  function StepAfter(a: Action, step: int): int {
    if a.SetStep? then a.k else step
  }

  /** The events a plan logs from a given step number on. */
  function Notes(actions: seq<Action>, step: int): seq<Note>
    decreases actions
  {
    if actions == [] then []
    else Notes1(actions[0], step) + Notes(actions[1..], StepAfter(actions[0], step))
  }

  function LastStep(actions: seq<Action>, step: int): int
    decreases actions
  {
    if actions == [] then step else LastStep(actions[1..], StepAfter(actions[0], step))
  }

  lemma {:induction false} NotesConcat(a: seq<Action>, b: seq<Action>, step: int)
    ensures Notes(a + b, step) == Notes(a, step) + Notes(b, LastStep(a, step))
    ensures LastStep(a + b, step) == LastStep(b, LastStep(a, step))
    decreases a
  {
    if a == [] {
      assert a + b == b;
    } else {
      assert (a + b)[1..] == a[1..] + b;
      NotesConcat(a[1..], b, StepAfter(a[0], step));
    }
  }

  lemma {:induction false} StepUnchanged(actions: seq<Action>, step: int)
    requires forall i :: 0 <= i < |actions| ==> !actions[i].SetStep?
    ensures LastStep(actions, step) == step
    decreases actions
  {
    if actions != [] {
      StepUnchanged(actions[1..], step);
    }
  }

  lemma NotesNone(step: int)
    ensures Notes([], step) == [] && LastStep([], step) == step
  {
  }

  lemma NotesOne(a: Action, step: int)
    ensures Notes([a], step) == Notes1(a, step) && LastStep([a], step) == StepAfter(a, step)
  {
    assert [a][1..] == [];
    assert Notes([a], step) == Notes1(a, step) + Notes([], StepAfter(a, step));
    assert LastStep([a], step) == LastStep([], StepAfter(a, step));
  }

  /** The first action's notes, then the rest. */
  lemma NotesCons(a: Action, rest: seq<Action>, step: int)
    ensures Notes([a] + rest, step) == Notes1(a, step) + Notes(rest, StepAfter(a, step))
    ensures LastStep([a] + rest, step) == LastStep(rest, StepAfter(a, step))
  {
    NotesConcat([a], rest, step);
    NotesOne(a, step);
  }

  lemma NotesSnoc(some: seq<Action>, b: Action, step: int)
    ensures Notes(some + [b], step) == Notes(some, step) + Notes1(b, LastStep(some, step))
    ensures LastStep(some + [b], step) == StepAfter(b, LastStep(some, step))
  {
    NotesConcat(some, [b], step);
    NotesOne(b, LastStep(some, step));
  }

  // ---- Executions log their notes ----

  /** Of the `notes` planned, the first ones have been logged; all of them unless halted. */
  ghost predicate Logs(w: World, w': World, notes: seq<Note>) {
    && w.log <= w'.log
    && |w'.log| - |w.log| <= |notes|
    && EraseAll(w'.log) == EraseAll(w.log) + notes[..|w'.log| - |w.log|]
    && (!w'.halted ==> |w'.log| - |w.log| == |notes|)
  }

  lemma AppendLogs(w: World, b: Body)
    requires !w.halted
    ensures Logs(w, Append(w, b), [Note(w.step, WithLatency(b, 0))])
  {
    var w' := Append(w, b);
    if !w'.halted {
      assert EraseAll(w'.log) == EraseAll(w.log) + [Note(w.step, WithLatency(b, 0))];
    }
  }

  lemma LogsTrans(w: World, w1: World, w2: World, a: seq<Note>, b: seq<Note>)
    requires Logs(w, w1, a) && (if w1.halted then w2 == w1 else Logs(w1, w2, b))
    ensures Logs(w, w2, a + b)
  {
    if !w1.halted {
      var k := |w2.log| - |w1.log|;
      assert (a + b)[..|a| + k] == a + b[..k];
    } else {
      assert (a + b)[..|w1.log| - |w.log|] == a[..|w1.log| - |w.log|];
    }
  }

  lemma NothingLogged(w: World, w': World)
    requires w'.log == w.log
    ensures Logs(w, w', [])
  {
    assert EraseAll(w.log) + [] == EraseAll(w.log);
  }

  /** Readings and file writes before or after do not show in the log. */
  lemma SameLogs(w0: World, w: World, w1: World, w2: World, notes: seq<Note>)
    requires w0.log == w.log && w2.log == w1.log && (!w2.halted ==> !w1.halted) && Logs(w, w1, notes)
    ensures Logs(w0, w2, notes)
  {
  }

  /** A halt with nothing logged is a first part of anything. */
  lemma HaltLogs(w: World, w': World, notes: seq<Note>)
    requires w'.log == w.log && w'.halted
    ensures Logs(w, w', notes)
  {
    assert EraseAll(w.log) + notes[..0] == EraseAll(w.log);
  }

  /** Performing an effect logs its mutation, if it has one. */
  lemma PerformLogs(w: World, files: Option<Workspace>, mutation: Option<Body>)
    requires !w.halted
    ensures Logs(w, Performed(w, files, mutation),
                 if mutation.Some? then [Note(w.step, WithLatency(mutation.value, 0))] else [])
  {
    hide Logs, Append;
    var w0 := Store(w, files);
    if mutation.Some? {
      AppendLogs(w0, mutation.value);
      var w1 := Append(w0, mutation.value);
      SameLogs(w, w0, w1, w1, [Note(w.step, WithLatency(mutation.value, 0))]);
    } else {
      NothingLogged(w, w0);
    }
  }

  lemma PerformKeepsStep(w: World, files: Option<Workspace>, mutation: Option<Body>)
    ensures Performed(w, files, mutation).step == w.step
    ensures w.halted ==> Performed(w, files, mutation) == w
  {
  }

  lemma TimedLogs(w: World, a: Action)
    requires !w.halted && a.Timed?
    ensures Logs(w, Exec1(w, a), Notes1(a, w.step))
  {
    hide Logs, Append, Performed;
    var r := Read(w);
    var w1 := Performed(r, a.files, a.mutation);
    var w2, ms := Read(w1), Latency(Reading(w), Reading(w1));
    var first := if a.mutation.Some? then [Note(w.step, WithLatency(a.mutation.value, 0))] else [];
    var last := [Note(w.step, WithLatency(a.end, 0))];
    PerformKeepsStep(r, a.files, a.mutation);
    if r.halted {
      HaltLogs(w, w2, first);
    } else {
      PerformLogs(r, a.files, a.mutation);
      SameLogs(w, r, w1, w2, first);
    }
    if w2.halted {
      StaysHalted(w2, WithLatency(a.end, ms));
    } else {
      AppendLogs(w2, WithLatency(a.end, ms));
      assert WithLatency(WithLatency(a.end, ms), 0) == WithLatency(a.end, 0);
    }
    LogsTrans(w, w2, Exec1(w, a), first, last);
  }

  lemma StaysHalted(w: World, b: Body)
    requires w.halted
    ensures Append(w, b) == w
  {
  }

  lemma Exec1Logs(w: World, a: Action)
    requires !w.halted
    ensures Logs(w, Exec1(w, a), Notes1(a, w.step))
    ensures !Exec1(w, a).halted ==> Exec1(w, a).step == StepAfter(a, w.step)
  {
    match a {
      case Emit(b) => AppendLogs(w, b);
      case Timed(_, _, _) => TimedLogs(w, a);
      case _ => NothingLogged(w, Exec1(w, a));
    }
    hide Logs;
  }

  /** Whatever the clock says, an execution logs the notes of its plan, in order: all of them, or
      a first part if the clock gave out. */
  lemma {:induction false} ExecLogs(w: World, actions: seq<Action>)
    requires !w.halted
    ensures Logs(w, Exec(w, actions), Notes(actions, w.step))
    decreases actions
  {
    if actions == [] {
      NothingLogged(w, w);
    } else {
      var w1 := Exec1(w, actions[0]);
      Exec1Logs(w, actions[0]);
      if w1.halted {
        HaltedStays(w1, actions[1..]);
      } else {
        ExecLogs(w1, actions[1..]);
      }
      hide Exec1, Notes1, Logs;
      LogsTrans(w, w1, Exec(w, actions), Notes1(actions[0], w.step), Notes(actions[1..], StepAfter(actions[0], w.step)));
    }
  }

  /** The clock of the operating system never gives out. */
  lemma {:induction false} OsNeverHalts(w: World, actions: seq<Action>)
    requires !w.halted && w.clock.Os?
    ensures !Exec(w, actions).halted && Exec(w, actions).clock.Os?
    decreases actions
  {
    if actions != [] {
      OsNeverHalts(Exec1(w, actions[0]), actions[1..]);
    }
  }

  /** The notes of the whole run of a task. */
  function Story(t: Task, env: Env, files: Workspace): seq<Note> {
    Notes(Whole(t, env, files), 0)
  }

  /** A run that the clock does not cut short writes its whole story. */
  lemma TraceIsStory(t: Task, env: Env, files: Workspace, clock: Clock)
    ensures var w := Exec(Fresh(clock, files), Whole(t, env, files));
            !w.halted ==> EraseAll(w.log) == Story(t, env, files)
  {
    hide Exec, Whole, Notes;
    var w := Exec(Fresh(clock, files), Whole(t, env, files));
    ExecLogs(Fresh(clock, files), Whole(t, env, files));
    if !w.halted {
      assert EraseAll([]) == [];
      assert Story(t, env, files)[..|w.log|] == Story(t, env, files);
    }
  }
}
