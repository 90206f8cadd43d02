/** One Reconcile call as the operator runs it: a sequence of API calls, with other parties (users,
    pods, other Reconcile calls) acting on the server before each of them. Whatever they do and
    whatever fails, the call and the others together make a run of the protocol in module
    Cluster, in which the call makes its own steps and then is over. So what every run of the
    protocol keeps holds while Reconcile calls overlap in any way. */
module Reconciler {
  import opened Options
  import opened Objects
  import opened TaskStatus
  import opened Cluster
  import opened ClusterHistory

  // ---- The others ----

  /** A step of somebody else than call `w`. */
  predicate Foreign(a: Action, w: nat) {
    match a
    case Fetch(v, _, _) => v != w
    case Look(v, _) => v != w
    case EnsureConfig(v) => v != w
    case EnsurePolicy(v) => v != w
    case CreatePod(v, _) => v != w
    case UpdateStatus(v) => v != w
    case Stop(v) => v != w
    case _ => true
  }

  predicate AllForeign(actions: seq<Action>, w: nat) {
    forall i :: 0 <= i < |actions| ==> Foreign(actions[i], w)
  }

  /** What the others do before each API call, by its number. */
  type Others = nat -> seq<Action>

  ghost predicate Apart(others: Others, w: nat) {
    forall k :: AllForeign(others(k), w)
  }

  ghost predicate Alone(others: Others) {
    forall k :: others(k) == []
  }

  /** What the others do before the API calls `from` to `to`. */
  function Flat(others: Others, from: nat, to: nat): seq<Action>
    requires from <= to
  {
    if from == to then [] else Flat(others, from, to - 1) + others(to - 1)
  }

  /** The steps of the others in a path, in order. */
  function Foreigners(path: seq<Action>, w: nat): seq<Action> {
    if path == [] then []
    else
      var last := path[|path| - 1];
      Foreigners(path[..|path| - 1], w) + if Foreign(last, w) then [last] else []
  }

  lemma {:induction false} ForeignKeeps(sha: Digest, c: State, actions: seq<Action>, w: nat)
    requires AllForeign(actions, w)
    ensures At(Run(sha, c, actions), w) == At(c, w)
    decreases actions
  {
    if actions != [] {
      ForeignKeeps1(sha, c, actions[0], w);
      hide Step;
      ForeignKeeps(sha, Step(sha, c, actions[0]), actions[1..], w);
    }
  }

  lemma ForeignKeeps1(sha: Digest, c: State, a: Action, w: nat)
    requires Foreign(a, w)
    ensures At(Step(sha, c, a), w) == At(c, w)
  {
    hide DecideFor, BuildPod, WithConfig, WithPolicy;
  }

  // ---- Paths ----

  /** Where call `w` set out: the state then, and the number of API calls answered before. */
  datatype Journey = Journey(sha: Digest, others: Others, w: nat, start: State, first: nat)

  /** `path` leads to state `c`, with exactly what the others did before the API calls so far. */
  ghost predicate Reached(j: Journey, path: seq<Action>, c: State, k: nat) {
    && j.first <= k
    && c == Run(j.sha, j.start, path)
    && Foreigners(path, j.w) == Flat(j.others, j.first, k)
  }

  /** No step of the call itself has abandoned a pod. */
  predicate Lossless(j: Journey, path: seq<Action>) {
    path != [] ==>
      var front, last := path[..|path| - 1], path[|path| - 1];
      var c := Run(j.sha, j.start, front);
      Lossless(j, front) && (Foreign(last, j.w) || Step(j.sha, c, last).abandoned == c.abandoned)
  }

  lemma {:induction false} ForeignTail(j: Journey, path: seq<Action>, more: seq<Action>)
    requires AllForeign(more, j.w)
    ensures Foreigners(path + more, j.w) == Foreigners(path, j.w) + more
    ensures Lossless(j, path) ==> Lossless(j, path + more)
    decreases more
  {
    hide Foreign, Step, Run;
    if more == [] {
      assert path + more == path;
    } else {
      var front, last := more[..|more| - 1], more[|more| - 1];
      ForeignTail(j, path, front);
      assert (path + more)[..|path + more| - 1] == path + front && more == front + [last];
      assert (path + more)[|path + more| - 1] == last && Foreign(last, j.w);
    }
  }

  /** An API call begins: the others have acted. */
  lemma Served(j: Journey, path: seq<Action>, c: State, k: nat)
    requires Reached(j, path, c, k) && Apart(j.others, j.w)
    ensures var c' := Run(j.sha, c, j.others(k));
            && Reached(j, path + j.others(k), c', k + 1)
            && At(c', j.w) == At(c, j.w) && Extends(c.api, c'.api)
            && (Alone(j.others) ==> c' == c)
    ensures Lossless(j, path) ==> Lossless(j, path + j.others(k))
  {
    var more := j.others(k);
    assert AllForeign(more, j.w);
    ForeignKeeps(j.sha, c, more, j.w);
    ForeignTail(j, path, more);
    RunConcat(j.sha, j.start, path, more);
    RunExtends(j.sha, c, more);
    hide Lossless, Foreigners, Extends, AllForeign;
  }

  /** The call makes a step of its own. */
  lemma Stepped(j: Journey, path: seq<Action>, c: State, k: nat, a: Action)
    requires Reached(j, path, c, k) && !Foreign(a, j.w)
    ensures Reached(j, path + [a], Step(j.sha, c, a), k)
    ensures Lossless(j, path) && Step(j.sha, c, a).abandoned == c.abandoned ==> Lossless(j, path + [a])
  {
    RunSnoc(j.sha, j.start, path, a);
    hide Run, Step, Foreign;
    assert (path + [a])[..|path|] == path;
  }

  // ---- The API server ----

  datatype Fetched = FetchFailed | NotFound | Found(version: Version)
  datatype Lookup = Broken | Absent | There
  datatype PodLookup = PodBroken | PodAbsent | PodThere(pod: Pod)

  /** How a lookup and the creation that may follow it go wrong: the lookup fails, it misses an
      object that is there (an old cache), or the creation fails. */
  datatype Access = Access(getFails: bool, missed: bool, createFails: bool)

  /** Which API calls of one Reconcile call fail. */
  datatype Faults = Faults(fetch: bool, config: Access, policy: Access, pod: bool, lookup: bool, status: bool)

  const Flawless := Access(false, false, false)
  const NoFaults := Faults(false, Flawless, Flawless, false, false, false)

  /** The server with everybody else around. `cluster` is what it stores, and where each call
      stands; every API call is answered after the others have acted once more. */
  class ApiServer {
    const sha: Digest
    const others: Others
    var cluster: State
    var calls: nat

    constructor (sha: Digest, others: Others)
      ensures this.sha == sha && this.others == others && cluster == Init && calls == 0
    {
      this.sha, this.others := sha, others;
      cluster, calls := Init, 0;
    }

    /** The state in which the next API call will be answered. */
    function Now(): State
      reads this
    {
      Run(sha, cluster, others(calls))
    }

    method Serve()
      modifies this
      ensures cluster == old(Now()) && calls == old(calls) + 1
    {
      cluster := Run(sha, cluster, others(calls));
      calls := calls + 1;
    }

    /** Get of the task; a cache may answer with any version `rv`. */
    method GetTask(task: string, rv: nat, fault: bool) returns (r: Fetched)
      modifies this
      ensures cluster == old(Now()) && calls == old(calls) + 1
      ensures r == if fault then FetchFailed
                   else if Knows(cluster.api, task, rv) then Found(cluster.api.tasks[task][rv]) else NotFound
    {
      Serve();
      if fault {
        return FetchFailed;
      }
      if task !in cluster.api.tasks || rv >= |cluster.api.tasks[task]| {
        return NotFound;
      }
      return Found(cluster.api.tasks[task][rv]);
    }

    method GetConfigMap(name: string, f: Access) returns (r: Lookup)
      modifies this
      ensures cluster == old(Now()) && calls == old(calls) + 1
      ensures r == if f.getFails then Broken else if name in cluster.api.configs && !f.missed then There else Absent
    {
      Serve();
      if f.getFails {
        return Broken;
      }
      return if name in cluster.api.configs && !f.missed then There else Absent;
    }

    method CreateConfigMap(name: string, config: ConfigMap, fault: bool) returns (ok: bool)
      modifies this
      ensures calls == old(calls) + 1
      ensures ok <==> !fault && name !in old(Now()).api.configs
      ensures cluster == var c := old(Now());
                         if ok then c.(api := c.api.(configs := c.api.configs[name := config])) else c
    {
      Serve();
      if fault || name in cluster.api.configs {
        return false;
      }
      cluster := cluster.(api := cluster.api.(configs := cluster.api.configs[name := config]));
      return true;
    }

    method GetNetworkPolicy(name: string, f: Access) returns (r: Lookup)
      modifies this
      ensures cluster == old(Now()) && calls == old(calls) + 1
      ensures r == if f.getFails then Broken else if name in cluster.api.policies && !f.missed then There else Absent
    {
      Serve();
      if f.getFails {
        return Broken;
      }
      return if name in cluster.api.policies && !f.missed then There else Absent;
    }

    method CreateNetworkPolicy(name: string, policy: NetworkPolicy, fault: bool) returns (ok: bool)
      modifies this
      ensures calls == old(calls) + 1
      ensures ok <==> !fault && name !in old(Now()).api.policies
      ensures cluster == var c := old(Now());
                         if ok then c.(api := c.api.(policies := c.api.policies[name := policy])) else c
    {
      Serve();
      if fault || name in cluster.api.policies {
        return false;
      }
      cluster := cluster.(api := cluster.api.(policies := cluster.api.policies[name := policy]));
      return true;
    }

    method CreatePod(name: string, pod: Pod, fault: bool) returns (ok: bool)
      modifies this
      ensures calls == old(calls) + 1
      ensures ok <==> !fault && name !in old(Now()).api.pods
      ensures cluster == var c := old(Now()); if ok then c.(api := c.api.(pods := c.api.pods[name := pod])) else c
    {
      Serve();
      if fault || name in cluster.api.pods {
        return false;
      }
      cluster := cluster.(api := cluster.api.(pods := cluster.api.pods[name := pod]));
      return true;
    }

    method GetPod(name: string, fault: bool) returns (r: PodLookup)
      modifies this
      ensures cluster == old(Now()) && calls == old(calls) + 1
      ensures r == if fault then PodBroken
                   else if ViewOf(cluster.api, name).Missing? then PodAbsent else PodThere(cluster.api.pods[name])
    {
      Serve();
      if fault {
        return PodBroken;
      }
      if name !in cluster.api.pods || cluster.api.pods[name].view.Missing? {
        return PodAbsent;
      }
      return PodThere(cluster.api.pods[name]);
    }

    /** Status().Update: optimistic concurrency on the resource version. */
    method UpdateStatus(task: string, rv: nat, s: Status, fault: bool) returns (ok: bool)
      modifies this
      ensures calls == old(calls) + 1
      ensures ok <==> !fault && IsCurrent(old(Now()).api, task, rv)
      ensures cluster == var c := old(Now()); if ok then c.(api := WithStatus(c.api, task, rv, s)) else c
    {
      Serve();
      if fault || task !in cluster.api.tasks || |cluster.api.tasks[task]| != rv + 1 {
        return false;
      }
      var versions := cluster.api.tasks[task];
      var current := versions[rv];
      if s != current.status {
        cluster := cluster.(api := cluster.api.(tasks := cluster.api.tasks[task := versions + [current.(status := s)]]));
      }
      return true;
    }

    /** Notes where call `w` stands; nothing is stored. */
    method Stand(w: nat, worker: Worker)
      modifies this`cluster
      ensures cluster == Set(old(cluster), w, worker)
    {
      cluster := cluster.(workers := cluster.workers[w := worker]);
    }

    /** Notes that call `w` ends with an error; nothing is stored. */
    method Leave(w: nat)
      modifies this`cluster
      ensures cluster == GiveUp(old(cluster), w)
    {
      cluster := GiveUp(cluster, w);
    }
  }

  /** The journey goes on at this server. */
  ghost predicate Under(api: ApiServer, j: Journey, path: seq<Action>)
    reads api
  {
    api.sha == j.sha && api.others == j.others && Apart(j.others, j.w) && Reached(j, path, api.cluster, api.calls)
  }

  /** The call is over. */
  ghost predicate Over(api: ApiServer, j: Journey, path: seq<Action>)
    reads api
  {
    Under(api, j, path) && At(api.cluster, j.w).Idle?
  }

  predicate Snapshot(a: Api, task: string, rv: nat, v: Version) {
    Knows(a, task, rv) && a.tasks[task][rv] == v
  }

  function StatusIn(a: Api, task: string): Option<Status> {
    if task in a.tasks && a.tasks[task] != [] then Some(Current(a.tasks[task]).status) else None
  }

  // ---- The call's own steps ----

  lemma StopStep(sha: Digest, c: State, w: nat)
    ensures Step(sha, c, Stop(w)) == GiveUp(c, w) && At(GiveUp(c, w), w).Idle?
  {
  }

  lemma ConfigStep(sha: Digest, c: State, w: nat, task: string, rv: nat, v: Version)
    requires At(c, w) == Holding(task, rv) && Snapshot(c.api, task, rv, v) && MustProvision(v)
    ensures Step(sha, c, EnsureConfig(w)) ==
            Set(c.(api := WithConfig(sha, c.api, task, v.spec)), w, Configured(task, rv))
  {
    hide WithConfig;
  }

  lemma PolicyStep(sha: Digest, c: State, w: nat, task: string, rv: nat)
    requires At(c, w) == Configured(task, rv)
    ensures Step(sha, c, EnsurePolicy(w)) == Set(c.(api := WithPolicy(c.api, task)), w, Secured(task, rv))
  {
    hide WithPolicy;
  }

  lemma PodStep(sha: Digest, c: State, w: nat, task: string, rv: nat, v: Version, suffix: string)
    requires At(c, w) == Secured(task, rv) && Snapshot(c.api, task, rv, v) && PodName(task, suffix) !in c.api.pods
    ensures var pod := PodName(task, suffix);
            Step(sha, c, CreatePod(w, suffix)) ==
            Set(c.(api := WithPod(sha, c.api, task, rv, pod)), w,
                Writing(task, rv, v.status.(podName := pod, phase := Provisioning), Some(pod)))
  {
    hide PodName, BuildPod;
  }

  lemma WriteStep(sha: Digest, c: State, w: nat)
    requires At(c, w).Writing? && IsCurrent(c.api, At(c, w).task, At(c, w).rv)
    ensures var at := At(c, w);
            && Step(sha, c, UpdateStatus(w)) == Set(c.(api := WithStatus(c.api, at.task, at.rv, at.status)), w, Idle)
            && StatusIn(WithStatus(c.api, at.task, at.rv, at.status), at.task) == Some(at.status)
            && var h := WithStatus(c.api, at.task, at.rv, at.status).tasks[at.task];
               h != [] && Current(h) == Current(c.api.tasks[at.task]).(status := at.status)
  {
  }

  /** Where a call that looks at its task and pod stands afterwards. */
  function AfterLook(a: Api, task: string, rv: nat, v: Version, now: Time): Worker {
    match DecideFor(a, v, now)
    case Quit => Idle
    case Provision => Holding(task, rv)
    case Put(s) => Writing(task, rv, s, None)
  }

  lemma LookStep(sha: Digest, c: State, w: nat, task: string, rv: nat, v: Version, now: Time)
    requires At(c, w) == Holding(task, rv) && Snapshot(c.api, task, rv, v) && !DecideFor(c.api, v, now).Provision?
    ensures Step(sha, c, Look(w, now)) == Set(c, w, AfterLook(c.api, task, rv, v, now))
  {
    hide DecideFor;
  }

  // ---- The helpers of Reconcile ----

  /** An object that is there must be seen, one that is not must be created. */
  predicate Succeeds(present: bool, f: Access) {
    !f.getFails && if present then !f.missed else !f.createFails
  }

  /** Gives up: the call ends with an error. */
  method Fail(api: ApiServer, w: nat, ghost j: Journey, ghost soFar: seq<Action>) returns (ghost path: seq<Action>)
    requires Under(api, j, soFar) && j.w == w
    modifies api`cluster
    ensures Over(api, j, path)
  {
    Stepped(j, soFar, api.cluster, api.calls, Stop(w));
    StopStep(j.sha, api.cluster, w);
    api.Leave(w);
    path := soFar + [Stop(w)];
  }

  method EnsureConfigMapForPod(api: ApiServer, w: nat, task: string, rv: nat, v: Version, f: Access,
                               ghost j: Journey, ghost soFar: seq<Action>)
    returns (ok: bool, ghost path: seq<Action>)
    requires Under(api, j, soFar) && j.w == w && Lossless(j, soFar)
    requires At(api.cluster, w) == Holding(task, rv) && Snapshot(api.cluster.api, task, rv, v) && MustProvision(v)
    modifies api
    ensures if ok then Under(api, j, path) && Lossless(j, path) else Over(api, j, path)
    ensures ok ==>
              && At(api.cluster, w) == Configured(task, rv) && Snapshot(api.cluster.api, task, rv, v)
              && ConfigMapName(api.sha, task, v.spec) in api.cluster.api.configs
    ensures Alone(api.others) ==>
              && (ok <==> Succeeds(ConfigMapName(api.sha, task, v.spec) in old(api.cluster).api.configs, f))
              && (ok ==> api.cluster == Set(old(api.cluster).(api := WithConfig(api.sha, old(api.cluster).api, task, v.spec)),
                                            w, Configured(task, rv)))
  {
    hide Run, Step, Lossless, Foreigners, Apart;
    var name := ConfigMapName(api.sha, task, v.spec);
    path := soFar + api.others(api.calls);
    Served(j, soFar, api.cluster, api.calls);
    var found := api.GetConfigMap(name, f);
    ghost var c := api.cluster;
    ok := found.There?;
    if found.Absent? {
      Served(j, path, c, api.calls);
      path := path + api.others(api.calls);
      c := api.Now();
      ok := api.CreateConfigMap(name, ConfigMap(task, v.spec), f.createFails);
    }
    if ok {
      ConfigStep(j.sha, c, w, task, rv, v);
      Stepped(j, path, c, api.calls, EnsureConfig(w));
      api.Stand(w, Configured(task, rv));
      path := path + [EnsureConfig(w)];
    } else {
      path := Fail(api, w, j, path);
    }
  }

  method EnsureNetworkPolicyForPod(api: ApiServer, w: nat, task: string, rv: nat, ghost v: Version, f: Access,
                                   ghost j: Journey, ghost soFar: seq<Action>)
    returns (ok: bool, ghost path: seq<Action>)
    requires Under(api, j, soFar) && j.w == w && Lossless(j, soFar)
    requires At(api.cluster, w) == Configured(task, rv) && Snapshot(api.cluster.api, task, rv, v)
    modifies api
    ensures if ok then Under(api, j, path) && Lossless(j, path) else Over(api, j, path)
    ensures ok ==>
              && At(api.cluster, w) == Secured(task, rv) && Snapshot(api.cluster.api, task, rv, v)
              && PolicyName(task) in api.cluster.api.policies
    ensures Alone(api.others) ==>
              && (ok <==> Succeeds(PolicyName(task) in old(api.cluster).api.policies, f))
              && (ok ==> api.cluster ==
                         Set(old(api.cluster).(api := WithPolicy(old(api.cluster).api, task)), w, Secured(task, rv)))
  {
    hide Run, Step, Lossless, Foreigners, Apart;
    var name := PolicyName(task);
    path := soFar + api.others(api.calls);
    Served(j, soFar, api.cluster, api.calls);
    var found := api.GetNetworkPolicy(name, f);
    ghost var c := api.cluster;
    ok := found.There?;
    if found.Absent? {
      Served(j, path, c, api.calls);
      path := path + api.others(api.calls);
      c := api.Now();
      ok := api.CreateNetworkPolicy(name, BuildNetworkPolicy(task), f.createFails);
    }
    if ok {
      PolicyStep(j.sha, c, w, task, rv);
      Stepped(j, path, c, api.calls, EnsurePolicy(w));
      api.Stand(w, Secured(task, rv));
      path := path + [EnsurePolicy(w)];
    } else {
      path := Fail(api, w, j, path);
    }
  }

  /** Creates the pod. */
  method CreatePodForTask(api: ApiServer, w: nat, task: string, rv: nat, v: Version, suffix: string, fault: bool,
                          ghost j: Journey, ghost soFar: seq<Action>)
    returns (ok: bool, ghost path: seq<Action>)
    requires Under(api, j, soFar) && j.w == w && Lossless(j, soFar)
    requires At(api.cluster, w) == Secured(task, rv) && Snapshot(api.cluster.api, task, rv, v)
    modifies api
    ensures if ok then Under(api, j, path) && Lossless(j, path) else Over(api, j, path)
    ensures var pod := PodName(task, suffix);
            ok ==>
              && At(api.cluster, w) == Writing(task, rv, v.status.(podName := pod, phase := Provisioning), Some(pod))
              && Knows(api.cluster.api, task, rv)
              && pod in api.cluster.api.pods
              && api.cluster.api.pods[pod] == Pod(task, rv, v.spec, BuildPod(api.sha, task, v.spec),
                                                  Present(PodStatus(PodPending, "")))
    ensures Alone(api.others) ==>
              && (ok <==> !fault && PodName(task, suffix) !in old(api.cluster).api.pods)
              && (ok ==> api.cluster.api.tasks == old(api.cluster).api.tasks)
  {
    hide Run, Step, Lossless, Foreigners, Apart, BuildPod, PodName;
    var name := PodName(task, suffix);
    path := soFar + api.others(api.calls);
    Served(j, soFar, api.cluster, api.calls);
    ghost var c := api.Now();
    var pending := Present(PodStatus(PodPending, ""));
    ok := api.CreatePod(name, Pod(task, rv, v.spec, BuildPod(api.sha, task, v.spec), pending), fault);
    if ok {
      PodStep(j.sha, c, w, task, rv, v, suffix);
      Stepped(j, path, c, api.calls, CreatePod(w, suffix));
      api.Stand(w, Writing(task, rv, v.status.(podName := name, phase := Provisioning), Some(name)));
      path := path + [CreatePod(w, suffix)];
    } else {
      path := Fail(api, w, j, path);
    }
  }

  /** Sends a decided status to the server; without an error it is the stored one. */
  method Commit(api: ApiServer, w: nat, task: string, rv: nat, status: Status, fault: bool,
                ghost created: Option<string>, ghost j: Journey, ghost soFar: seq<Action>)
    returns (err: bool, ghost path: seq<Action>)
    requires Under(api, j, soFar) && j.w == w && Lossless(j, soFar)
    requires At(api.cluster, w) == Writing(task, rv, status, created)
    modifies api
    ensures Over(api, j, path) && (!err ==> Lossless(j, path))
    ensures err <==> fault || !IsCurrent(old(api.Now()).api, task, rv)
    ensures !err ==> StatusIn(api.cluster.api, task) == Some(status)
    ensures !err ==>
              var h, h' := old(api.Now()).api.tasks[task], api.cluster.api.tasks[task];
              h' != [] && Current(h') == Version(Current(h).spec, status, Current(h).deleting)
    ensures Alone(api.others) ==> (err <==> fault || !IsCurrent(old(api.cluster).api, task, rv))
  {
    hide Run, Step, Lossless, Foreigners, Apart, WithStatus, StatusIn;
    path := soFar + api.others(api.calls);
    Served(j, soFar, api.cluster, api.calls);
    ghost var c := api.Now();
    var ok := api.UpdateStatus(task, rv, status, fault);
    err := !ok;
    if ok {
      WriteStep(j.sha, c, w);
      Stepped(j, path, c, api.calls, UpdateStatus(w));
      api.Stand(w, Idle);
      path := path + [UpdateStatus(w)];
    } else {
      path := Fail(api, w, j, path);
    }
  }

  /** The branch for a pending task without a pod: ConfigMap, policy, pod, then the status. Without
      an error the stored status names the pod that was created. */
  method Provision(api: ApiServer, w: nat, task: string, rv: nat, v: Version, suffix: string, f: Faults,
                   ghost j: Journey, ghost soFar: seq<Action>)
    returns (err: bool, ghost path: seq<Action>)
    requires Under(api, j, soFar) && j.w == w && Lossless(j, soFar)
    requires At(api.cluster, w) == Holding(task, rv) && Snapshot(api.cluster.api, task, rv, v) && MustProvision(v)
    modifies api
    ensures Over(api, j, path) && (!err ==> Lossless(j, path))
    ensures !err ==>
              StatusIn(api.cluster.api, task) ==
                Some(v.status.(podName := PodName(task, suffix), phase := Provisioning))
    ensures Alone(api.others) && f == NoFaults && IsCurrent(old(api.cluster).api, task, rv)
            && PodName(task, suffix) !in old(api.cluster).api.pods ==>
              !err
  {
    hide Run, Step, Lossless, Reached, Apart, PodName;
    var ok;
    ok, path := EnsureConfigMapForPod(api, w, task, rv, v, f.config, j, soFar);
    if ok {
      ok, path := EnsureNetworkPolicyForPod(api, w, task, rv, v, f.policy, j, path);
      if ok {
        ok, path := CreatePodForTask(api, w, task, rv, v, suffix, f.pod, j, path);
        if ok {
          var pod := PodName(task, suffix);
          var status := v.status.(podName := pod, phase := Provisioning);
          err, path := Commit(api, w, task, rv, status, f.status, Some(pod), j, path);
          return;
        }
      }
    }
    err := true;
  }

  /** The pod is gone, or its task ConfigMap reference can be read. */
  predicate Readable(a: Api, pod: string) {
    ViewOf(a, pod).Missing? || ConfigFound(a, pod)
  }

  /** Notes the decision of a call that has looked, and sends the status if there is one to send. */
  method Conclude(api: ApiServer, w: nat, task: string, rv: nat, v: Version, write: bool, status: Status, now: Time,
                  fault: bool, ghost j: Journey, ghost soFar: seq<Action>)
    returns (err: bool, ghost path: seq<Action>)
    requires Under(api, j, soFar) && j.w == w && Lossless(j, soFar)
    requires At(api.cluster, w) == Holding(task, rv) && Snapshot(api.cluster.api, task, rv, v)
    requires DecideFor(api.cluster.api, v, now) == if write then Put(status) else Quit
    modifies api
    ensures Over(api, j, path) && (!err ==> Lossless(j, path))
    ensures !write ==> !err && api.cluster.api == old(api.cluster).api
    ensures write && !err ==> StatusIn(api.cluster.api, task) == Some(status)
    ensures write && Alone(api.others) ==> (err <==> fault || !IsCurrent(old(api.cluster).api, task, rv))
  {
    hide Run, Step, Lossless, Foreigners, Apart, DecideFor, StatusIn;
    LookStep(j.sha, api.cluster, w, task, rv, v, now);
    Stepped(j, soFar, api.cluster, api.calls, Look(w, now));
    path := soFar + [Look(w, now)];
    if write {
      api.Stand(w, Writing(task, rv, status, None));
      err, path := Commit(api, w, task, rv, status, fault, None, j, path);
    } else {
      api.Stand(w, Idle);
      err := false;
    }
  }

  /** What the status of the task becomes when the pod has been looked up; `unreadable` says that a
      live pod has no readable reference to its ConfigMap, which is an error. */
  method FollowPod(s: Status, found: PodLookup, now: Time) returns (status: Status, write: bool, unreadable: bool)
    requires !found.PodBroken? && (found.PodThere? ==> found.pod.view.Present?)
    requires s.phase != Unset && s.podName != ""
    ensures var view := if found.PodThere? then found.pod.view else Missing;
            var hasConfig := found.PodThere? && HasConfigMap(found.pod.built, "task", TASK_ITEM);
            && Decide(s, false, view, hasConfig, now) == (if write then Put(status) else Quit)
            && (unreadable <==> view.Present? && view.status.phase in {PodRunning, PodPending} && !hasConfig)
  {
    status, write, unreadable := s, false, false;
    if found.PodAbsent? {
      if !Terminal(status.phase) {
        status := status.(phase := Failed, reason := NOT_FOUND, finishedAt := Some(now));
        write := true;
      }
      return;
    }
    var seen := found.pod.view.status;
    if seen.phase == PodRunning || seen.phase == PodPending {
      var ref := GetConfigMapFromPod(found.pod.built, "task", "task.yaml", "task.yaml");
      unreadable := ref.None?;
    }
    if !unreadable {
      status, write := UpdateFromPod(status, seen, now);
    }
  }

  /** The branch for a task that has a pod: look at the pod and follow it. What is written is decided
      by what the lookup saw. */
  method Observe(api: ApiServer, w: nat, task: string, rv: nat, v: Version, now: Time, f: Faults,
                 ghost j: Journey, ghost soFar: seq<Action>)
    returns (err: bool, ghost path: seq<Action>)
    requires Under(api, j, soFar) && j.w == w && Lossless(j, soFar)
    requires At(api.cluster, w) == Holding(task, rv) && Snapshot(api.cluster.api, task, rv, v)
    requires !v.deleting && v.status.phase != Unset && v.status.podName != ""
    modifies api
    ensures Over(api, j, path) && (!err ==> Lossless(j, path))
    ensures f.lookup ==> err
    ensures var d := DecideFor(old(api.Now()).api, v, now);
            !err && d.Put? ==> StatusIn(api.cluster.api, task) == Some(d.status)
    ensures Alone(api.others) && f == NoFaults && IsCurrent(old(api.cluster).api, task, rv)
            && Readable(old(api.cluster).api, v.status.podName) ==>
              && !err
              && StatusIn(api.cluster.api, task) ==
                   Some(Reconciled(v.status, ViewOf(old(api.cluster).api, v.status.podName), "", now))
  {
    hide Run, Step, Lossless, Foreigners, Apart;
    path := soFar + api.others(api.calls);
    Served(j, soFar, api.cluster, api.calls);
    var found := api.GetPod(v.status.podName, f.lookup);
    if found.PodBroken? {
      path := Fail(api, w, j, path);
      return true, path;
    }
    var status, write, unreadable := FollowPod(v.status, found, now);
    err, path := Conclude(api, w, task, rv, v, write, status, now, f.status, j, path);
    err := err || unreadable;
  }

  /** The branches of Reconcile in the order the operator tests them, each ending in at most
      one status write. */
  method Act(api: ApiServer, w: nat, task: string, rv: nat, v: Version, suffix: string, now: Time, f: Faults,
             ghost j: Journey, ghost soFar: seq<Action>)
    returns (err: bool, ghost path: seq<Action>)
    requires Under(api, j, soFar) && j.w == w && Lossless(j, soFar)
    requires At(api.cluster, w) == Holding(task, rv) && Snapshot(api.cluster.api, task, rv, v)
    modifies api
    ensures Over(api, j, path) && (!err ==> Lossless(j, path))
    ensures !err && MustProvision(v) ==>
              StatusIn(api.cluster.api, task) ==
                Some(v.status.(podName := PodName(task, suffix), phase := Provisioning))
    ensures Alone(api.others) && f == NoFaults && IsCurrent(old(api.cluster).api, task, rv) && !v.deleting
            && PodName(task, suffix) !in old(api.cluster).api.pods
            && Readable(old(api.cluster).api, v.status.podName) ==>
              && !err
              && StatusIn(api.cluster.api, task) ==
                   Some(Reconciled(v.status, ViewOf(old(api.cluster).api, v.status.podName), PodName(task, suffix), now))
  {
    hide Run, Step, Lossless, Reached, Apart, PodName, StatusIn;
    var status := v.status;
    if v.deleting {
      err, path := Conclude(api, w, task, rv, v, false, status, now, f.status, j, soFar);
    } else if status.phase == Unset {
      status := status.(phase := Pending, podName := "");
      err, path := Conclude(api, w, task, rv, v, true, status, now, f.status, j, soFar);
    } else if status.podName == "" {
      if status.phase == Pending {
        err, path := Provision(api, w, task, rv, v, suffix, f, j, soFar);
      } else {
        status := status.(phase := Failed, reason := INVALID, finishedAt := Some(now));
        err, path := Conclude(api, w, task, rv, v, true, status, now, f.status, j, soFar);
      }
    } else {
      err, path := Observe(api, w, task, rv, v, now, f, j, soFar);
    }
  }

  lemma SetOut(j: Journey)
    ensures Reached(j, [], j.start, j.first) && Lossless(j, [])
  {
  }

  lemma FetchStep(sha: Digest, c: State, w: nat, task: string, rv: nat)
    requires At(c, w).Idle? && Knows(c.api, task, rv)
    ensures Step(sha, c, Fetch(w, task, rv)) == Set(c, w, Holding(task, rv))
  {
  }

  /** Reconcile: fetch the task (the cache may answer with any version `rv`), then act on it. A
      failed fetch is an error, a task that is not found is none. Whatever fails and whatever the
      others do before each API call, `path` is a run of the protocol from the state before the
      call to the state after it, in which the others do exactly what they did; a call that
      returns no error has left no unreported pod behind, and if it found a pending task without
      a pod, the stored status names the pod it created. If nothing fails, nobody interferes and
      the snapshot is current, the stored status becomes the reconciled one. */
  method Reconcile(api: ApiServer, w: nat, task: string, rv: nat, suffix: string, now: Time, f: Faults)
    returns (err: bool, ghost path: seq<Action>)
    requires At(api.cluster, w).Idle? && Apart(api.others, w)
    modifies api
    ensures api.cluster == Run(api.sha, old(api.cluster), path) && At(api.cluster, w).Idle?
    ensures old(api.calls) <= api.calls && Foreigners(path, w) == Flat(api.others, old(api.calls), api.calls)
    ensures !err ==> Lossless(Journey(api.sha, api.others, w, old(api.cluster), old(api.calls)), path)
    ensures f.fetch || !Knows(old(api.Now()).api, task, rv) ==> (err <==> f.fetch) && api.cluster == old(api.Now())
    ensures !f.fetch && Knows(old(api.Now()).api, task, rv) ==>
              var v := old(api.Now()).api.tasks[task][rv];
              && (!err && MustProvision(v) ==>
                    StatusIn(api.cluster.api, task) ==
                      Some(v.status.(podName := PodName(task, suffix), phase := Provisioning)))
              && (Alone(api.others) && f == NoFaults && IsCurrent(old(api.cluster).api, task, rv) && !v.deleting
                  && PodName(task, suffix) !in old(api.cluster).api.pods
                  && Readable(old(api.cluster).api, v.status.podName) ==>
                    && !err
                    && StatusIn(api.cluster.api, task) ==
                         Some(Reconciled(v.status, ViewOf(old(api.cluster).api, v.status.podName),
                                         PodName(task, suffix), now)))
  {
    hide Run, Step, Lossless, Foreigners, Apart, PodName, StatusIn, Readable;
    ghost var j := Journey(api.sha, api.others, w, api.cluster, api.calls);
    SetOut(j);
    Served(j, [], api.cluster, api.calls);
    path := [] + api.others(api.calls);
    var fetched := api.GetTask(task, rv, f.fetch);
    if !fetched.Found? {
      return fetched.FetchFailed?, path;
    }
    FetchStep(j.sha, api.cluster, w, task, rv);
    Stepped(j, path, api.cluster, api.calls, Fetch(w, task, rv));
    api.Stand(w, Holding(task, rv));
    path := path + [Fetch(w, task, rv)];
    err, path := Act(api, w, task, rv, fetched.version, suffix, now, f, j, path);
  }
}
