/** What the versions of a task look like in every reachable state, for every environment:
    the pod name and the start time are written once, and the "Invalid state" branch of
    Reconcile is dead code for tasks that start fresh. */
module ClusterHistory {
  import opened Objects
  import opened TaskStatus
  import opened Cluster

  predicate GoodStatus(s: Status) {
    && (s.podName == "" <==> s.phase == Unset || s.phase == Pending)
    && (s.podName == "" ==> s.startedAt.None?)
  }

  predicate Advance(s: Status, s': Status) {
    && (s.podName != "" ==> s'.podName == s.podName)
    && (s.startedAt.Some? ==> s'.startedAt == s.startedAt)
  }

  predicate GoodHistory(h: seq<Version>) {
    && h != [] && h[0].status == Fresh
    && (forall i :: 0 <= i < |h| ==> GoodStatus(h[i].status))
    && (forall i :: 0 < i < |h| ==> Advance(h[i - 1].status, h[i].status))
  }

  predicate GoodWorker(a: Api, at: Worker) {
    match at
    case Idle => true
    case Holding(t, rv) => Knows(a, t, rv)
    case Configured(t, rv) => Knows(a, t, rv) && MustProvision(a.tasks[t][rv])
    case Secured(t, rv) => Knows(a, t, rv) && MustProvision(a.tasks[t][rv])
    case Writing(t, rv, s, created) =>
      && Knows(a, t, rv)
      && GoodStatus(s) && Advance(a.tasks[t][rv].status, s)
      && match created
         case None => s.podName == a.tasks[t][rv].status.podName
         case Some(p) => p != "" && s.podName == p && a.tasks[t][rv].status.podName == ""
  }

  predicate HistoryInv(c: State) {
    && (forall t :: t in c.api.tasks ==> GoodHistory(c.api.tasks[t]))
    && (forall w :: w in c.workers ==> GoodWorker(c.api, c.workers[w]))
  }

  /** Tasks are never dropped and their histories only grow. */
  predicate Extends(a: Api, a': Api) {
    forall t :: t in a.tasks ==> t in a'.tasks && a.tasks[t] <= a'.tasks[t]
  }

  lemma StepExtends(sha: Digest, c: State, action: Action)
    ensures Extends(c.api, Step(sha, c, action).api)
  {
  }

  lemma WorkerStaysGood(a: Api, a': Api, at: Worker)
    requires Extends(a, a') && GoodWorker(a, at)
    ensures GoodWorker(a', at)
  {
  }

  /** The decision taken on a good status leads to a good worker. */
  lemma DecisionIsGood(a: Api, v: Version, now: Time)
    requires GoodStatus(v.status) && DecideFor(a, v, now).Put?
    ensures var s := DecideFor(a, v, now).status;
            GoodStatus(s) && Advance(v.status, s) && s.podName == v.status.podName
  {
  }

  lemma AppendGood(h: seq<Version>, v: Version)
    requires GoodHistory(h) && GoodStatus(v.status) && Advance(Current(h).status, v.status)
    ensures GoodHistory(h + [v])
  {
  }

  lemma PodNameNotEmpty(task: string, suffix: string)
    ensures PodName(task, suffix) != ""
  {
    assert |PodName(task, suffix)| >= 5;
  }

  lemma QuietStep(sha: Digest, c: State, action: Action)
    requires !action.CreateTask? && !action.EditSpec? && !action.DeleteTask? && !action.UpdateStatus?
    ensures Step(sha, c, action).api.tasks == c.api.tasks
  {
  }

  lemma StepKeepsHistories(sha: Digest, c: State, action: Action)
    requires HistoryInv(c)
    ensures forall t :: t in Step(sha, c, action).api.tasks ==> GoodHistory(Step(sha, c, action).api.tasks[t])
  {
    hide BuildPod, DecideFor, WithConfig, WithPolicy;
    var a, a' := c.api, Step(sha, c, action).api;
    match action {
      case EditSpec(t, spec) =>
        if t in a.tasks { AppendGood(a.tasks[t], Current(a.tasks[t]).(spec := spec)); }
      case DeleteTask(t) =>
        if t in a.tasks { AppendGood(a.tasks[t], Current(a.tasks[t]).(deleting := true)); }
      case UpdateStatus(w) =>
        var at := At(c, w);
        if at.Writing? && IsCurrent(a, at.task, at.rv) && a'.tasks != a.tasks {
          AppendGood(a.tasks[at.task], Current(a.tasks[at.task]).(status := at.status));
        }
      case CreateTask(t, spec) =>
      case _ => QuietStep(sha, c, action);
    }
  }

  lemma StepKeepsWorker(sha: Digest, c: State, action: Action, w: nat)
    requires HistoryInv(c) && w in Step(sha, c, action).workers
    ensures GoodWorker(Step(sha, c, action).api, Step(sha, c, action).workers[w])
  {
    var c' := Step(sha, c, action);
    StepExtends(sha, c, action);
    if w in c.workers && c'.workers[w] == c.workers[w] {
      hide Step;
      WorkerStaysGood(c.api, c'.api, c.workers[w]);
    } else {
      hide Extends, BuildPod, DecideFor;
      assert GoodWorker(c.api, At(c, w));
      match action {
        case Look(_, now) =>
          if c'.workers[w].Writing? {
            DecisionIsGood(c.api, c.api.tasks[At(c, w).task][At(c, w).rv], now);
          }
        case CreatePod(_, suffix) => PodNameNotEmpty(At(c, w).task, suffix);
        case _ =>
      }
    }
  }

  lemma StepKeepsWorkers(sha: Digest, c: State, action: Action)
    requires HistoryInv(c)
    ensures var c' := Step(sha, c, action);
            forall w :: w in c'.workers ==> GoodWorker(c'.api, c'.workers[w])
  {
    var c' := Step(sha, c, action);
    forall w | w in c'.workers
      ensures GoodWorker(c'.api, c'.workers[w])
    {
      StepKeepsWorker(sha, c, action, w);
    }
  }

  lemma {:induction false} HistoryAlways(sha: Digest, c: State, actions: seq<Action>)
    requires HistoryInv(c)
    ensures HistoryInv(Run(sha, c, actions))
    decreases actions
  {
    if actions != [] {
      StepKeepsHistories(sha, c, actions[0]);
      StepKeepsWorkers(sha, c, actions[0]);
      HistoryAlways(sha, Step(sha, c, actions[0]), actions[1..]);
    }
  }

  lemma {:induction false} AdvanceFar(h: seq<Version>, i: nat, j: nat)
    requires GoodHistory(h) && i <= j < |h|
    ensures Advance(h[i].status, h[j].status)
    decreases j
  {
    if i < j {
      AdvanceFar(h, i, j - 1);
    }
  }

  /** Under every interleaving, with stale snapshots and crashes: once a version of a task has a
      pod name or a start time, every later version has the same one; and no version is in the
      state that Reconcile calls invalid. */
  lemma WriteOnce(sha: Digest, actions: seq<Action>, task: string, i: nat, j: nat)
    requires task in Run(sha, Init, actions).api.tasks
    requires i <= j < |Run(sha, Init, actions).api.tasks[task]|
    ensures var h := Run(sha, Init, actions).api.tasks[task];
            && (h[i].status.podName != "" ==> h[j].status.podName == h[i].status.podName)
            && (h[i].status.startedAt.Some? ==> h[j].status.startedAt == h[i].status.startedAt)
            && !InvalidState(h[i].status)
  {
    HistoryAlways(sha, Init, actions);
    AdvanceFar(Run(sha, Init, actions).api.tasks[task], i, j);
  }

  /** Later states only append to what earlier states stored. */
  lemma {:induction false} RunExtends(sha: Digest, c: State, actions: seq<Action>)
    ensures Extends(c.api, Run(sha, c, actions).api)
    decreases actions
  {
    if actions != [] {
      StepExtends(sha, c, actions[0]);
      RunExtends(sha, Step(sha, c, actions[0]), actions[1..]);
    }
  }
}
