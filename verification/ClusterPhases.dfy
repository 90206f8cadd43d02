/** The lifecycle when pods behave: a pod is Pending, then Running, then Succeeded or Failed, then
    possibly gone, it never turns back and is never in phase Unknown. Lookups see pods in that
    order (no cache miss right after creation). Then, under every interleaving, stored phases
    only climb, terminal statuses are final, and at most four status changes ever commit. */
module ClusterPhases {
  import opened Objects
  import opened TaskStatus
  import opened Cluster
  import opened ClusterHistory

  function Rank(p: Phase): nat {
    match p
    case Unset => 0
    case Pending => 1
    case Provisioning => 2
    case Running => 3
    case Checkpointing => 3
    case _ => 4
  }

  // ---- The environment ----

  predicate Known(v: PodView) {
    v.Present? ==> v.status.phase != PodUnknown
  }

  function Age(v: PodView): nat {
    match v
    case Missing => 3
    case Present(s) =>
      match s.phase
      case PodPending => 0
      case PodRunning => 1
      case _ => 2
  }

  /** The same phase, with any reason, except that a failed pod stays evicted or not. */
  predicate SamePhase(v: PodView, v': PodView) {
    || v' == v
    || (&& v.Present? && v'.Present? && v'.status.phase == v.status.phase
        && (v.status.phase == PodFailed ==> (v'.status.reason == "Evicted" <==> v.status.reason == "Evicted")))
  }

  /** A pod may only age; what kind of end it came to never changes. */
  predicate Ages(v: PodView, v': PodView) {
    Known(v') && (SamePhase(v, v') || Age(v) < Age(v'))
  }

  predicate Behaves(c: State, action: Action) {
    action.MovePod? && action.pod in c.api.pods ==> Ages(c.api.pods[action.pod].view, action.view)
  }

  ghost predicate BehavesAll(sha: Digest, c: State, actions: seq<Action>)
    decreases actions
  {
    actions != [] ==> Behaves(c, actions[0]) && BehavesAll(sha, Step(sha, c, actions[0]), actions[1..])
  }

  // ---- Statuses and the views that justify them ----

  predicate WellFormed(s: Status) {
    && s.phase != Checkpointing
    && (s.phase == Running ==> s.startedAt.Some?)
    && (Terminal(s.phase) ==> s.finishedAt.Some?)
    && (s.phase == Completed ==> s.reason == SUCCESS)
    && (s.phase == Evicted ==> s.reason == EVICTED)
    && (s.phase == Failed ==> s.reason == FAILURE || s.reason == NOT_FOUND)
  }

  /** The pod has got at least as far as the status says. */
  predicate Justifies(v: PodView, s: Status) {
    && Known(v)
    && match s.phase
       case Running => v.Missing? || v.status.phase != PodPending
       case Completed => v.Missing? || v.status.phase == PodSucceeded
       case Evicted => v.Missing? || (v.status.phase == PodFailed && v.status.reason == "Evicted")
       case Failed =>
         v.Missing? || (s.reason == FAILURE && v.status.phase == PodFailed && v.status.reason != "Evicted")
       case _ => true
  }

  predicate Climbs(s: Status, s': Status) {
    s' == s || Rank(s.phase) < Rank(s'.phase)
  }

  lemma JustifiesLater(v: PodView, v': PodView, s: Status)
    requires Justifies(v, s) && WellFormed(s) && Ages(v, v')
    ensures Justifies(v', s)
  {
  }

  /** A decision taken on a justified status is justified itself and climbs. */
  lemma DecisionClimbs(s: Status, deleting: bool, view: PodView, hasConfig: bool, now: Time)
    requires GoodStatus(s) && WellFormed(s) && Justifies(view, s)
    ensures var d := Decide(s, deleting, view, hasConfig, now);
            d.Put? ==> WellFormed(d.status) && Climbs(s, d.status) && Justifies(view, d.status)
  {
  }

  // ---- The invariant ----

  /** A status held anywhere: well formed and justified by the pod it names. */
  predicate Backed(a: Api, s: Status) {
    && WellFormed(s)
    && (s.podName != "" ==> s.podName in a.pods && Justifies(a.pods[s.podName].view, s))
  }

  predicate ClimbingHistory(a: Api, h: seq<Version>) {
    && (forall i :: 0 <= i < |h| ==> Backed(a, h[i].status))
    && (forall i :: 0 < i < |h| ==> Climbs(h[i - 1].status, h[i].status))
  }

  predicate ClimbingWorker(a: Api, at: Worker) {
    at.Writing? ==> Knows(a, at.task, at.rv) && Backed(a, at.status) && Climbs(a.tasks[at.task][at.rv].status, at.status)
  }

  predicate PhasesInv(c: State) {
    && HistoryInv(c)
    && (forall p :: p in c.api.pods ==> Known(c.api.pods[p].view))
    && (forall t :: t in c.api.tasks ==> ClimbingHistory(c.api, c.api.tasks[t]))
    && (forall w :: w in c.workers ==> ClimbingWorker(c.api, c.workers[w]))
  }

  predicate PodsAge(a: Api, a': Api) {
    forall p :: p in a.pods ==> p in a'.pods && Ages(a.pods[p].view, a'.pods[p].view)
  }

  lemma PodsUntouched(sha: Digest, c: State, action: Action)
    requires !action.MovePod? && !action.CreatePod?
    ensures Step(sha, c, action).api.pods == c.api.pods
  {
    hide DecideFor;
  }

  lemma StepAgesPods(sha: Digest, c: State, action: Action)
    requires PhasesInv(c) && Behaves(c, action)
    ensures PodsAge(c.api, Step(sha, c, action).api)
    ensures forall p :: p in Step(sha, c, action).api.pods ==> Known(Step(sha, c, action).api.pods[p].view)
  {
    if !action.MovePod? && !action.CreatePod? {
      hide Step;
      PodsUntouched(sha, c, action);
    } else {
      hide BuildPod, PodName, HistoryInv, ClimbingHistory, ClimbingWorker;
    }
  }

  lemma BackedLater(a: Api, a': Api, s: Status)
    requires Backed(a, s) && PodsAge(a, a')
    ensures Backed(a', s)
  {
    if s.podName != "" {
      JustifiesLater(a.pods[s.podName].view, a'.pods[s.podName].view, s);
    }
  }

  lemma HistoryLater(a: Api, a': Api, h: seq<Version>)
    requires ClimbingHistory(a, h) && PodsAge(a, a')
    ensures ClimbingHistory(a', h)
  {
    forall i | 0 <= i < |h| ensures Backed(a', h[i].status) { BackedLater(a, a', h[i].status); }
  }

  lemma AppendClimbs(a: Api, h: seq<Version>, v: Version)
    requires h != [] && ClimbingHistory(a, h) && Backed(a, v.status) && Climbs(Current(h).status, v.status)
    ensures ClimbingHistory(a, h + [v])
  {
  }

  /** A step appends at most one version: a committed status, or an old status under a new spec. */
  lemma StepAppends(sha: Digest, c: State, action: Action, t: string)
    requires HistoryInv(c) && t in c.api.tasks
    ensures var h, h' := c.api.tasks[t], Step(sha, c, action).api.tasks[t];
            || h' == h
            || (&& h != [] && h' == h + [Current(h')]
                && (Current(h').status == Current(h).status
                    || (action.UpdateStatus? && At(c, action.w).Writing? && At(c, action.w).task == t
                        && At(c, action.w).rv == |h| - 1 && Current(h').status == At(c, action.w).status)))
  {
    if !action.CreateTask? && !action.EditSpec? && !action.DeleteTask? && !action.UpdateStatus? {
      hide Step;
      QuietStep(sha, c, action);
    } else {
      hide DecideFor, BuildPod, GoodWorker, WithConfig, WithPolicy;
    }
  }

  lemma StepKeepsClimbing(sha: Digest, c: State, action: Action, t: string)
    requires PhasesInv(c) && Behaves(c, action) && t in Step(sha, c, action).api.tasks
    ensures ClimbingHistory(Step(sha, c, action).api, Step(sha, c, action).api.tasks[t])
  {
    var a, a' := c.api, Step(sha, c, action).api;
    if t in a.tasks {
      hide Step;
      var h, h' := a.tasks[t], a'.tasks[t];
      StepAgesPods(sha, c, action);
      StepAppends(sha, c, action, t);
      assert ClimbingHistory(a, h);
      HistoryLater(a, a', h);
      if h' != h {
        if Current(h').status != Current(h).status {
          var at := At(c, action.w);
          assert ClimbingWorker(a, at);
          BackedLater(a, a', at.status);
        } else {
          assert Backed(a', h[|h| - 1].status);
        }
        hide PhasesInv, Backed, PodsAge;
        AppendClimbs(a', h, Current(h'));
      }
    }
  }

  /** A snapshot held by any call is backed. */
  lemma SnapshotBacked(c: State, t: string, rv: nat)
    requires PhasesInv(c) && Knows(c.api, t, rv)
    ensures Backed(c.api, c.api.tasks[t][rv].status) && GoodStatus(c.api.tasks[t][rv].status)
  {
    assert ClimbingHistory(c.api, c.api.tasks[t]) && GoodHistory(c.api.tasks[t]);
  }

  lemma LookClimbs(c: State, t: string, rv: nat, now: Time)
    requires PhasesInv(c) && Knows(c.api, t, rv)
    ensures var v := c.api.tasks[t][rv];
            var d := DecideFor(c.api, v, now);
            d.Put? ==> Backed(c.api, d.status) && Climbs(v.status, d.status)
  {
    SnapshotBacked(c, t, rv);
    var v := c.api.tasks[t][rv];
    hide PhasesInv;
    if DecideFor(c.api, v, now).Put? { DecisionIsGood(c.api, v, now); }
    DecisionClimbs(v.status, v.deleting, ViewOf(c.api, v.status.podName),
                   ConfigFound(c.api, v.status.podName), now);
  }

  /** The status that reports a new pod is backed by that pod. */
  lemma CreateClimbs(sha: Digest, c: State, w: nat, suffix: string)
    requires PhasesInv(c) && At(c, w).Secured? && At(Step(sha, c, CreatePod(w, suffix)), w).Writing?
    ensures ClimbingWorker(Step(sha, c, CreatePod(w, suffix)).api, At(Step(sha, c, CreatePod(w, suffix)), w))
  {
    var at := At(c, w);
    assert GoodWorker(c.api, at);
    SnapshotBacked(c, at.task, at.rv);
    hide PhasesInv, HistoryInv, GoodWorker, BuildPod;
  }

  lemma WorkerLater(a: Api, a': Api, at: Worker)
    requires ClimbingWorker(a, at) && PodsAge(a, a') && Extends(a, a')
    ensures ClimbingWorker(a', at)
  {
    if at.Writing? { BackedLater(a, a', at.status); }
  }

  /** A call that has looked and wants to write. */
  lemma LookKeepsClimbing(sha: Digest, c: State, action: Action, w: nat)
    requires PhasesInv(c) && At(c, w).Holding? && At(Step(sha, c, action), w).Writing?
    ensures ClimbingWorker(Step(sha, c, action).api, At(Step(sha, c, action), w))
  {
    var at := At(c, w);
    assert GoodWorker(c.api, at);
    assert action.Look? && action.w == w && Step(sha, c, action).api == c.api by { hide PhasesInv, DecideFor, GoodWorker; }
    LookClimbs(c, at.task, at.rv, action.now);
    hide PhasesInv, DecideFor, Backed, GoodWorker;
  }

  lemma StepKeepsClimbingWorker(sha: Digest, c: State, action: Action, w: nat)
    requires PhasesInv(c) && Behaves(c, action) && w in Step(sha, c, action).workers
    ensures ClimbingWorker(Step(sha, c, action).api, Step(sha, c, action).workers[w])
  {
    var c', at := Step(sha, c, action), At(c, w);
    StepAgesPods(sha, c, action);
    StepExtends(sha, c, action);
    assert GoodWorker(c.api, at) && ClimbingWorker(c.api, at);
    if c'.workers[w] == at {
      hide Step, PhasesInv;
      WorkerLater(c.api, c'.api, at);
    } else if c'.workers[w].Writing? {
      if at.Holding? {
        LookKeepsClimbing(sha, c, action, w);
      } else {
        CreateClimbs(sha, c, w, action.suffix);
      }
    }
  }

  lemma {:induction false} PhasesAlways(sha: Digest, c: State, actions: seq<Action>)
    requires PhasesInv(c) && BehavesAll(sha, c, actions)
    ensures PhasesInv(Run(sha, c, actions))
    decreases actions
  {
    if actions != [] {
      var c' := Step(sha, c, actions[0]);
      StepKeepsHistories(sha, c, actions[0]);
      StepKeepsWorkers(sha, c, actions[0]);
      StepAgesPods(sha, c, actions[0]);
      forall t | t in c'.api.tasks ensures ClimbingHistory(c'.api, c'.api.tasks[t]) {
        StepKeepsClimbing(sha, c, actions[0], t);
      }
      forall w | w in c'.workers ensures ClimbingWorker(c'.api, c'.workers[w]) {
        StepKeepsClimbingWorker(sha, c, actions[0], w);
      }
      hide Step;
      PhasesAlways(sha, c', actions[1..]);
    }
  }

  // ---- What it means for a whole history ----

  /** Number of versions whose status differs from the one before. */
  function Changes(h: seq<Version>): nat {
    if |h| <= 1 then 0
    else Changes(h[..|h| - 1]) + if h[|h| - 1].status != h[|h| - 2].status then 1 else 0
  }

  lemma {:induction false} ClimbFar(a: Api, h: seq<Version>, i: nat, j: nat)
    requires ClimbingHistory(a, h) && i <= j < |h|
    ensures Climbs(h[i].status, h[j].status)
    ensures Terminal(h[i].status.phase) ==> h[j].status == h[i].status
    decreases j
  {
    if i < j {
      ClimbFar(a, h, i, j - 1);
      assert Climbs(h[j - 1].status, h[j].status);
    }
  }

  lemma {:induction false} ChangesBounded(a: Api, h: seq<Version>)
    requires h != [] && ClimbingHistory(a, h)
    ensures Changes(h) <= Rank(Current(h).status.phase)
    decreases h
  {
    if |h| > 1 {
      var g := h[..|h| - 1];
      ChangesBounded(a, g);
      assert Climbs(h[|h| - 2].status, h[|h| - 1].status);
    }
  }

  /** For every well-behaved run: phases only climb, a terminal status (phase, reason, finishing
      time) is final, and at most four status changes ever commit. */
  lemma PhasesOnlyClimb(sha: Digest, actions: seq<Action>, task: string, i: nat, j: nat)
    requires BehavesAll(sha, Init, actions)
    requires task in Run(sha, Init, actions).api.tasks
    requires i <= j < |Run(sha, Init, actions).api.tasks[task]|
    ensures var h := Run(sha, Init, actions).api.tasks[task];
            && Rank(h[i].status.phase) <= Rank(h[j].status.phase)
            && (Rank(h[i].status.phase) == Rank(h[j].status.phase) ==> h[i].status == h[j].status)
            && (Terminal(h[i].status.phase) ==> h[j].status == h[i].status && h[i].status.finishedAt.Some?)
            && Changes(h) <= 4
  {
    PhasesAlways(sha, Init, actions);
    var a := Run(sha, Init, actions).api;
    ClimbFar(a, a.tasks[task], i, j);
    ChangesBounded(a, a.tasks[task]);
    assert Backed(a, a.tasks[task][i].status);
  }
}
