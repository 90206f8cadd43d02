/** Where every pod ever created stands: named in its task's status, abandoned by the call that
    created it, or still waiting for that call's status write. */
module ClusterPods {
  import opened Options
  import opened Objects
  import opened TaskStatus
  import opened Cluster
  import opened ClusterHistory

  /** The pod a call has created and not yet reported. */
  function Unreported(c: State, w: nat): Option<string> {
    var at := At(c, w);
    if at.Writing? then at.created else None
  }

  /** The pod name in the current status of a task; empty if there is none. */
  function NameOf(a: Api, t: string): string {
    if t in a.tasks && a.tasks[t] != [] then Current(a.tasks[t]).status.podName else ""
  }

  predicate Committed(c: State, p: string) {
    p != "" && p in c.api.pods && NameOf(c.api, c.api.pods[p].task) == p
  }

  ghost predicate Reporting(c: State, p: string) {
    exists w :: Unreported(c, w) == Some(p)
  }

  /** A name in a status is the name of a pod of that task, and of no abandoned one. */
  ghost predicate NamesOk(c: State) {
    forall t :: NameOf(c.api, t) != "" ==>
      var p := NameOf(c.api, t);
      p in c.api.pods && c.api.pods[p].task == t && p !in c.abandoned
  }

  ghost predicate UnreportedOk(c: State) {
    && (forall w :: Unreported(c, w).Some? ==>
          var p := Unreported(c, w).value;
          p in c.api.pods && c.api.pods[p].task == At(c, w).task && p !in c.abandoned && !Committed(c, p))
    && (forall w, w' :: w != w' && Unreported(c, w).Some? ==> Unreported(c, w) != Unreported(c, w'))
  }

  ghost predicate Accounted(c: State) {
    && "" !in c.api.pods && c.abandoned <= c.api.pods.Keys
    && forall p :: p in c.api.pods ==> Committed(c, p) || p in c.abandoned || Reporting(c, p)
  }

  ghost predicate PodsInv(c: State) {
    HistoryInv(c) && NamesOk(c) && UnreportedOk(c) && Accounted(c)
  }

  /** The step touches nothing the accounting looks at. */
  ghost predicate Untouched(c: State, c': State) {
    && c'.abandoned == c.abandoned
    && c'.api.pods.Keys == c.api.pods.Keys
    && (forall p :: p in c.api.pods ==> c'.api.pods[p].task == c.api.pods[p].task)
    && (forall w :: Unreported(c', w) == Unreported(c, w))
    && (forall w :: Unreported(c, w).Some? ==> At(c', w).task == At(c, w).task)
    && (forall t :: NameOf(c'.api, t) == NameOf(c.api, t))
  }

  lemma UntouchedKeeps(c: State, c': State)
    requires PodsInv(c) && HistoryInv(c') && Untouched(c, c')
    ensures PodsInv(c')
  {
    forall p | p in c'.api.pods
      ensures Committed(c', p) <==> Committed(c, p)
      ensures Reporting(c', p) <==> Reporting(c, p)
    {
      assert NameOf(c'.api, c'.api.pods[p].task) == NameOf(c.api, c.api.pods[p].task);
      if w :| Unreported(c, w) == Some(p) { assert Unreported(c', w) == Some(p); }
    }
    forall w | Unreported(c', w).Some?
      ensures At(c', w).task == At(c, w).task && Unreported(c, w) == Unreported(c', w)
    {
    }
  }

  lemma GiveUpKeeps(c: State, w: nat)
    requires PodsInv(c) && HistoryInv(GiveUp(c, w))
    ensures PodsInv(GiveUp(c, w))
  {
    var c' := GiveUp(c, w);
    if Unreported(c, w).None? {
      UntouchedKeeps(c, c');
    } else {
      forall v | v != w ensures Unreported(c', v) == Unreported(c, v) && At(c', v) == At(c, v) {}
      forall p | p in c.api.pods && Reporting(c, p) ensures p in c'.abandoned || Reporting(c', p) {
        var v :| Unreported(c, v) == Some(p);
        assert v != w ==> Unreported(c', v) == Some(p);
      }
    }
  }

  /** Only call `w` moves, to `at`. */
  predicate OnlyMoves(c: State, c': State, w: nat, at: Worker) {
    c'.workers == c.workers[w := at]
  }

  lemma OthersStay(c: State, c': State, w: nat, at: Worker)
    requires OnlyMoves(c, c', w, at)
    ensures At(c', w) == at
    ensures forall v :: v != w ==> At(c', v) == At(c, v) && Unreported(c', v) == Unreported(c, v)
  {
  }

  /** A new pod, unreported by its creator. */
  lemma NewPodKeeps(c: State, c': State, w: nat, at: Worker, pod: Pod)
    requires PodsInv(c) && HistoryInv(c') && Unreported(c, w).None? && OnlyMoves(c, c', w, at)
    requires at.Writing? && at.created.Some? && at.created.value !in c.api.pods && at.created.value != "" && pod.task == at.task
    requires c'.api.pods == c.api.pods[at.created.value := pod] && c'.abandoned == c.abandoned
    requires c'.api.tasks == c.api.tasks
    ensures PodsInv(c')
  {
    var p' := at.created.value;
    OthersStay(c, c', w, at);
    assert Unreported(c', w) == Some(p');
    forall t ensures NameOf(c'.api, t) == NameOf(c.api, t) && NameOf(c.api, t) != p' {
      assert NamesOk(c);
    }
    forall p | p in c.api.pods ensures Committed(c', p) <==> Committed(c, p) {}
    forall p | p in c.api.pods && Reporting(c, p) ensures Reporting(c', p) {
      var v :| Unreported(c, v) == Some(p);
      assert Unreported(c', v) == Some(p);
    }
  }

  /** An unreported pod becomes the one its task's status names. */
  lemma ReportedPodKeeps(c: State, c': State, w: nat, t: string, pod: string)
    requires PodsInv(c) && HistoryInv(c') && OnlyMoves(c, c', w, Idle)
    requires Unreported(c, w) == Some(pod) && At(c, w).task == t && pod != ""
    requires c'.api.pods == c.api.pods && c'.abandoned == c.abandoned
    requires NameOf(c.api, t) == "" && NameOf(c'.api, t) == pod
    requires forall u :: u != t ==> NameOf(c'.api, u) == NameOf(c.api, u)
    ensures PodsInv(c')
  {
    OthersStay(c, c', w, Idle);
    assert c.api.pods[pod].task == t;
    forall p | p in c.api.pods && p != pod ensures Committed(c', p) <==> Committed(c, p) {}
    forall p | p in c.api.pods && p != pod && Reporting(c, p) ensures Reporting(c', p) {
      var v :| Unreported(c, v) == Some(p);
      assert Unreported(c', v) == Some(p);
    }
  }

  lemma CreateKeeps(sha: Digest, c: State, w: nat, suffix: string)
    requires PodsInv(c) && HistoryInv(Step(sha, c, CreatePod(w, suffix)))
    ensures PodsInv(Step(sha, c, CreatePod(w, suffix)))
  {
    hide PodsInv, HistoryInv;
    var c' := Step(sha, c, CreatePod(w, suffix));
    if c' != c {
      var at := At(c', w);
      PodNameNotEmpty(at.task, suffix);
      NewPodKeeps(c, c', w, at, c'.api.pods[at.created.value]);
    }
  }

  lemma ReportKeeps(sha: Digest, c: State, w: nat)
    requires PodsInv(c) && HistoryInv(Step(sha, c, UpdateStatus(w)))
    requires Unreported(c, w).Some? && IsCurrent(c.api, At(c, w).task, At(c, w).rv)
    ensures PodsInv(Step(sha, c, UpdateStatus(w)))
  {
    var c', at := Step(sha, c, UpdateStatus(w)), At(c, w);
    assert GoodWorker(c.api, at);
    hide PodsInv, HistoryInv;
    ReportedPodKeeps(c, c', w, at.task, at.created.value);
  }

  lemma EnvironmentUntouched(sha: Digest, c: State, action: Action)
    requires action.CreateTask? || action.EditSpec? || action.DeleteTask? || action.MovePod?
    ensures Untouched(c, Step(sha, c, action))
  {
  }

  lemma MoveUntouched(c: State, c': State, w: nat, at: Worker)
    requires OnlyMoves(c, c', w, at) && Unreported(c, w).None? && (at.Writing? ==> at.created.None?)
    requires c'.api.pods == c.api.pods && c'.abandoned == c.abandoned && c'.api.tasks == c.api.tasks
    ensures Untouched(c, c')
  {
    OthersStay(c, c', w, at);
  }

  lemma OtherStepsUntouched(sha: Digest, c: State, action: Action)
    requires !action.Stop? && !action.CreatePod? && !action.UpdateStatus?
    ensures Untouched(c, Step(sha, c, action))
  {
    hide Untouched;
    var c' := Step(sha, c, action);
    if action.CreateTask? || action.EditSpec? || action.DeleteTask? || action.MovePod? {
      EnvironmentUntouched(sha, c, action);
    } else if c' == c {
      SameUntouched(c);
    } else {
      hide DecideFor, WithConfig, WithPolicy;
      MoveUntouched(c, c', action.w, At(c', action.w));
    }
  }

  lemma SameUntouched(c: State)
    ensures Untouched(c, c)
  {
  }

  /** A write that reports no new pod leaves the accounting alone. */
  lemma PlainWriteUntouched(sha: Digest, c: State, w: nat)
    requires HistoryInv(c) && At(c, w).Writing? && At(c, w).created.None?
    requires IsCurrent(c.api, At(c, w).task, At(c, w).rv)
    ensures Untouched(c, Step(sha, c, UpdateStatus(w)))
  {
    var c', at := Step(sha, c, UpdateStatus(w)), At(c, w);
    assert GoodWorker(c.api, at);
    assert NameOf(c'.api, at.task) == NameOf(c.api, at.task);
  }

  lemma StepKeepsPods(sha: Digest, c: State, action: Action)
    requires PodsInv(c) && HistoryInv(Step(sha, c, action))
    ensures PodsInv(Step(sha, c, action))
  {
    hide PodsInv, HistoryInv, Untouched;
    match action {
      case Stop(w) => GiveUpKeeps(c, w);
      case CreatePod(w, suffix) => CreateKeeps(sha, c, w, suffix);
      case UpdateStatus(w) =>
        var at := At(c, w);
        if at.Writing? && IsCurrent(c.api, at.task, at.rv) {
          if at.created.Some? {
            ReportKeeps(sha, c, w);
          } else {
            assert HistoryInv(c) by { InvParts(c); }
            PlainWriteUntouched(sha, c, w);
            UntouchedKeeps(c, Step(sha, c, action));
          }
        } else if at.Writing? {
          GiveUpKeeps(c, w);
        }
      case _ =>
        InvParts(c);
        OtherStepsUntouched(sha, c, action);
        UntouchedKeeps(c, Step(sha, c, action));
    }
  }

  lemma InvParts(c: State)
    requires PodsInv(c)
    ensures HistoryInv(c)
  {
  }

  lemma {:induction false} PodsAlways(sha: Digest, c: State, actions: seq<Action>)
    requires PodsInv(c)
    ensures PodsInv(Run(sha, c, actions))
    decreases actions
  {
    if actions != [] {
      StepKeepsHistories(sha, c, actions[0]);
      StepKeepsWorkers(sha, c, actions[0]);
      StepKeepsPods(sha, c, actions[0]);
      PodsAlways(sha, Step(sha, c, actions[0]), actions[1..]);
    }
  }

  function PodsOf(c: State, t: string): set<string> {
    set p | p in c.api.pods && c.api.pods[p].task == t
  }

  /** Pods of a task whose creation was not followed by a committed status write. */
  ghost function Uncommitted(c: State, t: string): set<string> {
    set p | p in PodsOf(c, t) && (p in c.abandoned || Reporting(c, p))
  }

  /** Conservation, for every run: the pods of a task are exactly the one its status names and
      those whose creation never got committed, so there is at most one more pod than
      uncommitted creations. */
  lemma PodsAreAccounted(sha: Digest, actions: seq<Action>, t: string)
    ensures var c := Run(sha, Init, actions);
            var name := NameOf(c.api, t);
            && PodsOf(c, t) == (if name == "" then {} else {name}) + Uncommitted(c, t)
            && name !in Uncommitted(c, t)
            && |PodsOf(c, t)| == (if name == "" then 0 else 1) + |Uncommitted(c, t)|
  {
    PodsAlways(sha, Init, actions);
    AccountedCount(Run(sha, Init, actions), t);
  }

  lemma AccountedCount(c: State, t: string)
    requires PodsInv(c)
    ensures var name := NameOf(c.api, t);
            && PodsOf(c, t) == (if name == "" then {} else {name}) + Uncommitted(c, t)
            && name !in Uncommitted(c, t)
            && |PodsOf(c, t)| == (if name == "" then 0 else 1) + |Uncommitted(c, t)|
  {
    var name := NameOf(c.api, t);
    if name != "" {
      assert Committed(c, name);
      assert !Reporting(c, name);
    }
    assert PodsOf(c, t) == (if name == "" then {} else {name}) + Uncommitted(c, t);
  }

  // ---- The bound is sharp ----

  /** Stop right after creating a pod, then start over from the same snapshot. */
  function StopAndRetry(w: nat, t: string, rv: nat, first: string, second: string): seq<Action> {
    [CreatePod(w, first), Stop(w), Fetch(w, t, rv)] + [EnsureConfig(w), EnsurePolicy(w), CreatePod(w, second)]
  }

  lemma RunThree(sha: Digest, c: State, x: Action, y: Action, z: Action)
    ensures Run(sha, c, [x, y, z]) == Step(sha, Step(sha, Step(sha, c, x), y), z)
  {
    hide Step;
    assert [x, y, z][1..] == [y, z] && [y, z][1..] == [z] && [z][1..] == [];
    assert Run(sha, Step(sha, Step(sha, c, x), y), [z]) == Run(sha, Step(sha, Step(sha, Step(sha, c, x), y), z), []);
  }

  /** After the stop and the second fetch, the first pod is there and reported by nobody. */
  lemma StopLeavesPod(sha: Digest, c: State, w: nat, t: string, rv: nat, first: string)
    requires At(c, w) == Secured(t, rv) && Knows(c.api, t, rv) && PodName(t, first) !in c.api.pods
    ensures var half := Run(sha, c, [CreatePod(w, first), Stop(w), Fetch(w, t, rv)]);
            && At(half, w) == Holding(t, rv)
            && half.api == WithPod(sha, c.api, t, rv, PodName(t, first))
            && half.abandoned == c.abandoned + {PodName(t, first)}
  {
    hide BuildPod, ConfigMapName, PolicyName, PodName, Run;
    RunThree(sha, c, CreatePod(w, first), Stop(w), Fetch(w, t, rv));
  }

  /** Whenever a call stops between creating a pod and reporting it, the retry creates another,
      and the first stays behind. */
  lemma RetryAddsPod(sha: Digest, c: State, w: nat, t: string, rv: nat, first: string, second: string)
    requires At(c, w) == Secured(t, rv) && Knows(c.api, t, rv) && MustProvision(c.api.tasks[t][rv])
    requires PodName(t, first) !in c.api.pods && PodName(t, second) !in c.api.pods
    requires PodName(t, first) != PodName(t, second)
    ensures var c' := Run(sha, c, StopAndRetry(w, t, rv, first, second));
            var p, q, v := PodName(t, first), PodName(t, second), c.api.tasks[t][rv];
            && c'.api.tasks == c.api.tasks
            && c'.api.pods == WithPod(sha, WithPod(sha, c.api, t, rv, p), t, rv, q).pods
            && c'.abandoned == c.abandoned + {p}
            && At(c', w) == Writing(t, rv, v.status.(podName := q, phase := Provisioning), Some(q))
  {
    hide Step, PodName, Run, BuildPod, WithConfig, WithPolicy;
    var half := Run(sha, c, [CreatePod(w, first), Stop(w), Fetch(w, t, rv)]);
    StopLeavesPod(sha, c, w, t, rv, first);
    ProvisionPath(sha, half, w, t, rv, second);
    SetupKeeps(sha, half.api, t, c.api.tasks[t][rv].spec);
    RunConcat(sha, c, [CreatePod(w, first), Stop(w), Fetch(w, t, rv)],
              [EnsureConfig(w), EnsurePolicy(w), CreatePod(w, second)]);
  }

  /** A new task, up to the point where its first pod is created. */
  function Preparation(t: string, spec: string, now: Time): seq<Action> {
    [CreateTask(t, spec), Fetch(0, t, 0), Look(0, now)] + [UpdateStatus(0), Fetch(0, t, 1)]
    + [EnsureConfig(0), EnsurePolicy(0)]
  }

  lemma Started(sha: Digest, t: string, spec: string, now: Time)
    ensures Run(sha, Init, [CreateTask(t, spec), Fetch(0, t, 0), Look(0, now)]) ==
            State(Init.api.(tasks := map[t := [Version(spec, Fresh, false)]]),
                  map[0 := Writing(t, 0, Fresh.(phase := Pending), None)], {})
  {
    hide Run;
    RunThree(sha, Init, CreateTask(t, spec), Fetch(0, t, 0), Look(0, now));
    var v := Version(spec, Fresh, false);
    var c := Init.(api := Init.api.(tasks := map[t := [v]]));
    assert Step(sha, Init, CreateTask(t, spec)) == c;
    assert Step(sha, c, Fetch(0, t, 0)) == c.(workers := map[0 := Holding(t, 0)]);
    assert DecideFor(c.api, v, now) == Put(Fresh.(phase := Pending));
  }

  lemma Reported(sha: Digest, t: string, spec: string)
    ensures var v, s := Version(spec, Fresh, false), Fresh.(phase := Pending);
            Run(sha, State(Init.api.(tasks := map[t := [v]]), map[0 := Writing(t, 0, s, None)], {}),
                [UpdateStatus(0), Fetch(0, t, 1)]) ==
            State(Init.api.(tasks := map[t := [v, v.(status := s)]]), map[0 := Holding(t, 1)], {})
  {
    hide Run;
    var v, s := Version(spec, Fresh, false), Fresh.(phase := Pending);
    var c := State(Init.api.(tasks := map[t := [v]]), map[0 := Writing(t, 0, s, None)], {});
    var c1 := State(Init.api.(tasks := map[t := [v, v.(status := s)]]), map[0 := Idle], {});
    RunOne(sha, c, UpdateStatus(0));
    RunSnoc(sha, c, [UpdateStatus(0)], Fetch(0, t, 1));
    assert [v] + [v.(status := s)] == [v, v.(status := s)];
    assert Step(sha, c, UpdateStatus(0)) == c1;
    assert Step(sha, c1, Fetch(0, t, 1)).workers == map[0 := Holding(t, 1)];
    assert [UpdateStatus(0)] + [Fetch(0, t, 1)] == [UpdateStatus(0), Fetch(0, t, 1)];
  }

  lemma Prepared(sha: Digest, t: string, spec: string, now: Time)
    ensures var c := Run(sha, Init, Preparation(t, spec, now));
            && At(c, 0) == Secured(t, 1) && c.api.pods == map[] && c.abandoned == {}
            && IsCurrent(c.api, t, 1) && c.api.tasks[t][1] == Version(spec, Fresh.(phase := Pending), false)
  {
    hide Run, Step, WithConfig, WithPolicy;
    var a, b := [CreateTask(t, spec), Fetch(0, t, 0), Look(0, now)], [UpdateStatus(0), Fetch(0, t, 1)];
    Started(sha, t, spec, now);
    Reported(sha, t, spec);
    RunConcat(sha, Init, a, b);
    var c := Run(sha, Init, a + b);
    ProvisionPath(sha, c, 0, t, 1, "");
    SetupKeeps(sha, c.api, t, spec);
    RunConcat(sha, Init, a + b, [EnsureConfig(0), EnsurePolicy(0)]);
  }

  /** The status write that reports a pod, from the current version. */
  lemma WriteNamesPod(sha: Digest, c: State, w: nat)
    requires At(c, w).Writing? && IsCurrent(c.api, At(c, w).task, At(c, w).rv)
    ensures var c', at := Step(sha, c, UpdateStatus(w)), At(c, w);
            && NameOf(c'.api, at.task) == at.status.podName
            && c'.api.pods == c.api.pods && c'.abandoned == c.abandoned
  {
  }

  /** One pod per task is not what the operator guarantees. For every task there is a run from the
      empty cluster after which the task has two pods: the one its status names, and one that
      its creator gave up. */
  lemma RetryDuplicatesPod(sha: Digest, t: string, spec: string, now: Time, first: string, second: string)
    requires first != second
    ensures var c := Run(sha, Init, Preparation(t, spec, now) + StopAndRetry(0, t, 1, first, second) + [UpdateStatus(0)]);
            && PodsOf(c, t) == {PodName(t, first), PodName(t, second)} && |PodsOf(c, t)| == 2
            && NameOf(c.api, t) == PodName(t, second)
            && PodName(t, first) in c.abandoned
  {
    hide Run, BuildPod;
    var p, q := PodName(t, first), PodName(t, second);
    assert p != q by { assert p[|t + "-pod-"|..] == first && q[|t + "-pod-"|..] == second; }
    Prepared(sha, t, spec, now);
    var c := Run(sha, Init, Preparation(t, spec, now));
    RetryAddsPod(sha, c, 0, t, 1, first, second);
    WriteNamesPod(sha, Run(sha, c, StopAndRetry(0, t, 1, first, second)), 0);
    hide PodName, Step, NameOf;
    RunConcat(sha, Init, Preparation(t, spec, now), StopAndRetry(0, t, 1, first, second));
    RunSnoc(sha, Init, Preparation(t, spec, now) + StopAndRetry(0, t, 1, first, second), UpdateStatus(0));
  }
}
