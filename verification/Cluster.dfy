/** The operator as a distributed protocol. Any number of Reconcile calls run at once, each from
    a possibly old snapshot of its task; every API call is one atomic step, where a lookup that
    changes nothing is merged with the creation it leads to; a call may stop (error or crash)
    between any two steps; users edit specs and delete tasks; pods change state on their own.
    A status write commits only from the current version of the task. */
module Cluster {
  import opened Options
  import opened Objects
  import opened TaskStatus

  // ---- State ----

  datatype Version = Version(spec: string, status: Status, deleting: bool)

  /** A pod, the task, version and spec it was built from, and what a lookup of it currently sees. */
  datatype Pod = Pod(task: string, rv: nat, spec: string, built: PodObject, view: PodView)

  /** A stored ConfigMap with the task that owns it. */
  datatype ConfigMap = ConfigMap(owner: string, data: string)

  /** What the API server stores. A task keeps all its versions; the last one is current and
      the index of a version is its resource version. */
  datatype Api = Api(tasks: map<string, seq<Version>>, pods: map<string, Pod>,
                     configs: map<string, ConfigMap>, policies: map<string, NetworkPolicy>)

  /** Where a Reconcile call stands. */
  datatype Worker =
    | Idle
    | Holding(task: string, rv: nat)
    | Configured(task: string, rv: nat)
    | Secured(task: string, rv: nat)
    | Writing(task: string, rv: nat, status: Status, created: Option<string>)

  /** `abandoned` collects the pods whose status write will never commit. */
  datatype State = State(api: Api, workers: map<nat, Worker>, abandoned: set<string>)

  const Init := State(Api(map[], map[], map[], map[]), map[], {})

  datatype Action =
    | CreateTask(task: string, spec: string)
    | EditSpec(task: string, spec: string)
    | DeleteTask(task: string)
    | MovePod(pod: string, view: PodView)
    | Fetch(w: nat, task: string, rv: nat)
    | Look(w: nat, now: Time)
    | EnsureConfig(w: nat)
    | EnsurePolicy(w: nat)
    | CreatePod(w: nat, suffix: string)
    | UpdateStatus(w: nat)
    | Stop(w: nat)

  function At(c: State, w: nat): Worker {
    if w in c.workers then c.workers[w] else Idle
  }

  function Current(h: seq<Version>): Version
    requires h != []
  {
    h[|h| - 1]
  }

  const TASK_ITEM := KeyToPath("task.yaml", "task.yaml")

  function ViewOf(a: Api, pod: string): PodView {
    if pod in a.pods then a.pods[pod].view else Missing
  }

  predicate ConfigFound(a: Api, pod: string) {
    pod in a.pods && HasConfigMap(a.pods[pod].built, "task", TASK_ITEM)
  }

  function DecideFor(a: Api, v: Version, now: Time): Decision {
    Decide(v.status, v.deleting, ViewOf(a, v.status.podName), ConfigFound(a, v.status.podName), now)
  }

  predicate MustProvision(v: Version) {
    !v.deleting && v.status.phase == Pending && v.status.podName == ""
  }

  // ---- Effects of single API calls ----

  function AppendVersion(a: Api, task: string, v: Version): Api
    requires task in a.tasks
  {
    a.(tasks := a.tasks[task := a.tasks[task] + [v]])
  }

  function WithConfig(sha: Digest, a: Api, task: string, spec: string): Api {
    var name := ConfigMapName(sha, task, spec);
    if name in a.configs then a else a.(configs := a.configs[name := ConfigMap(task, spec)])
  }

  function WithPolicy(a: Api, task: string): Api {
    var name := PolicyName(task);
    if name in a.policies then a else a.(policies := a.policies[name := BuildNetworkPolicy(task)])
  }

  function PodName(task: string, suffix: string): string {
    task + "-pod-" + suffix
  }

  function WithPod(sha: Digest, a: Api, task: string, rv: nat, pod: string): Api
    requires Knows(a, task, rv)
  {
    var spec := a.tasks[task][rv].spec;
    a.(pods := a.pods[pod := Pod(task, rv, spec, BuildPod(sha, task, spec), Present(PodStatus(PodPending, "")))])
  }

  /** A status write from version `rv`: refused unless current, and a write that changes
      nothing makes no new version. */
  function WithStatus(a: Api, task: string, rv: nat, s: Status): Api {
    if task in a.tasks && |a.tasks[task]| == rv + 1 && s != Current(a.tasks[task]).status
    then AppendVersion(a, task, Current(a.tasks[task]).(status := s))
    else a
  }

  predicate IsCurrent(a: Api, task: string, rv: nat) {
    task in a.tasks && |a.tasks[task]| == rv + 1
  }

  predicate Knows(a: Api, task: string, rv: nat) {
    task in a.tasks && rv < |a.tasks[task]|
  }

  // ---- Steps ----

  function Set(c: State, w: nat, worker: Worker): State {
    c.(workers := c.workers[w := worker])
  }

  /** The call ends without its status write: a pod it created is abandoned. */
  function GiveUp(c: State, w: nat): State {
    var at := At(c, w);
    Set(c, w, Idle).(abandoned :=
      if at.Writing? && at.created.Some? then c.abandoned + {at.created.value} else c.abandoned)
  }

  /** One atomic step; an action that is not possible in the state leaves it unchanged. */
  function Step(sha: Digest, c: State, action: Action): State {
    var a := c.api;
    match action
    case CreateTask(t, spec) =>
      if t in a.tasks then c else c.(api := a.(tasks := a.tasks[t := [Version(spec, Fresh, false)]]))
    case EditSpec(t, spec) =>
      if t in a.tasks && a.tasks[t] != []
      then c.(api := AppendVersion(a, t, Current(a.tasks[t]).(spec := spec))) else c
    case DeleteTask(t) =>
      if t in a.tasks && a.tasks[t] != []
      then c.(api := AppendVersion(a, t, Current(a.tasks[t]).(deleting := true))) else c
    case MovePod(p, view) =>
      if p in a.pods then c.(api := a.(pods := a.pods[p := a.pods[p].(view := view)])) else c
    case Fetch(w, t, rv) =>
      if At(c, w).Idle? && Knows(a, t, rv) then Set(c, w, Holding(t, rv)) else c
    case Look(w, now) =>
      (match At(c, w)
       case Holding(t, rv) =>
         if !Knows(a, t, rv) then c
         else
           (match DecideFor(a, a.tasks[t][rv], now)
            case Quit => Set(c, w, Idle)
            case Provision => c
            case Put(s) => Set(c, w, Writing(t, rv, s, None)))
       case _ => c)
    case EnsureConfig(w) =>
      (match At(c, w)
       case Holding(t, rv) =>
         if Knows(a, t, rv) && MustProvision(a.tasks[t][rv])
         then Set(c.(api := WithConfig(sha, a, t, a.tasks[t][rv].spec)), w, Configured(t, rv)) else c
       case _ => c)
    case EnsurePolicy(w) =>
      (match At(c, w)
       case Configured(t, rv) => Set(c.(api := WithPolicy(a, t)), w, Secured(t, rv))
       case _ => c)
    case CreatePod(w, suffix) =>
      (match At(c, w)
       case Secured(t, rv) =>
         var pod := PodName(t, suffix);
         if Knows(a, t, rv) && pod !in a.pods
         then
           var s := a.tasks[t][rv].status.(podName := pod, phase := Provisioning);
           Set(c.(api := WithPod(sha, a, t, rv, pod)), w, Writing(t, rv, s, Some(pod)))
         else c
       case _ => c)
    case UpdateStatus(w) =>
      (match At(c, w)
       case Writing(t, rv, s, _) =>
         if IsCurrent(a, t, rv) then Set(c.(api := WithStatus(a, t, rv, s)), w, Idle) else GiveUp(c, w)
       case _ => c)
    case Stop(w) => GiveUp(c, w)
  }

  /** Every interleaving is a list of actions from the empty cluster. */
  function Run(sha: Digest, c: State, actions: seq<Action>): State
    decreases actions
  {
    if actions == [] then c else Run(sha, Step(sha, c, actions[0]), actions[1..])
  }

  lemma {:induction false} RunConcat(sha: Digest, c: State, a: seq<Action>, b: seq<Action>)
    ensures Run(sha, c, a + b) == Run(sha, Run(sha, c, a), b)
    decreases a
  {
    if a == [] {
      assert a + b == b;
    } else {
      assert (a + b)[1..] == a[1..] + b;
      RunConcat(sha, Step(sha, c, a[0]), a[1..], b);
    }
  }

  lemma RunOne(sha: Digest, c: State, a: Action)
    ensures Run(sha, c, [a]) == Step(sha, c, a)
  {
    assert [a][1..] == [];
    assert Run(sha, c, [a]) == Run(sha, Step(sha, c, a), []);
  }

  lemma RunSnoc(sha: Digest, c: State, a: seq<Action>, x: Action)
    ensures Run(sha, c, a + [x]) == Step(sha, Run(sha, c, a), x)
  {
    RunConcat(sha, c, a, [x]);
    RunOne(sha, Run(sha, c, a), x);
  }

  /** Users and pods: a new task starts fresh, an edit or a deletion makes a new version that keeps
      the status, and a lookup sees what the pod has become. */
  lemma OthersAct(sha: Digest, c: State, t: string, spec: string, p: string, view: PodView)
    ensures t !in c.api.tasks ==>
              Step(sha, c, CreateTask(t, spec)).api.tasks == c.api.tasks[t := [Version(spec, Fresh, false)]]
    ensures t in c.api.tasks && c.api.tasks[t] != [] ==>
              var h := c.api.tasks[t];
              var last := h[|h| - 1];
              && Step(sha, c, EditSpec(t, spec)).api.tasks == c.api.tasks[t := h + [Version(spec, last.status, last.deleting)]]
              && Step(sha, c, DeleteTask(t)).api.tasks == c.api.tasks[t := h + [Version(last.spec, last.status, true)]]
    ensures p in c.api.pods ==> ViewOf(Step(sha, c, MovePod(p, view)).api, p) == view
  {
  }

  // ---- Provisioning ----

  lemma SetupKeeps(sha: Digest, a: Api, task: string, spec: string)
    ensures var a' := WithPolicy(WithConfig(sha, a, task, spec), task);
            a'.tasks == a.tasks && a'.pods == a.pods
    ensures WithConfig(sha, a, task, spec).tasks == a.tasks
  {
  }

  /** Where the provisioning branch gets when all its creations succeed. */
  lemma ProvisionPath(sha: Digest, c: State, w: nat, task: string, rv: nat, suffix: string)
    requires At(c, w) == Holding(task, rv) && Knows(c.api, task, rv) && MustProvision(c.api.tasks[task][rv])
    ensures var c1 := Run(sha, c, [EnsureConfig(w)]);
            var c2 := Run(sha, c, [EnsureConfig(w), EnsurePolicy(w)]);
            var c3 := Run(sha, c, [EnsureConfig(w), EnsurePolicy(w), CreatePod(w, suffix)]);
            var v, pod := c.api.tasks[task][rv], PodName(task, suffix);
            && c1.api == WithConfig(sha, c.api, task, v.spec)
            && c2.api == WithPolicy(c1.api, task) && At(c2, w) == Secured(task, rv)
            && c2.abandoned == c.abandoned && c3.abandoned == c.abandoned
            && (pod !in c.api.pods ==>
                  && c3.api == WithPod(sha, c2.api, task, rv, pod)
                  && At(c3, w) == Writing(task, rv, v.status.(podName := pod, phase := Provisioning), Some(pod)))
  {
    hide Run, BuildPod, WithConfig, WithPolicy;
    RunOne(sha, c, EnsureConfig(w));
    RunSnoc(sha, c, [EnsureConfig(w)], EnsurePolicy(w));
    RunSnoc(sha, c, [EnsureConfig(w), EnsurePolicy(w)], CreatePod(w, suffix));
    SetupKeeps(sha, c.api, task, c.api.tasks[task][rv].spec);
    assert [EnsureConfig(w)] + [EnsurePolicy(w)] == [EnsureConfig(w), EnsurePolicy(w)];
    assert [EnsureConfig(w), EnsurePolicy(w)] + [CreatePod(w, suffix)]
           == [EnsureConfig(w), EnsurePolicy(w), CreatePod(w, suffix)];
  }
}
