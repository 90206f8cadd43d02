/** What surrounds every pod in every reachable state: its ConfigMap and its network policy. */
module ClusterObjects {
  import opened Options
  import opened Objects
  import opened TaskStatus
  import opened Cluster
  import opened ClusterHistory

  predicate HasConfig(sha: Digest, a: Api, task: string, spec: string) {
    ConfigMapName(sha, task, spec) in a.configs
  }

  predicate HasPolicy(a: Api, task: string) {
    PolicyName(task) in a.policies
  }

  /** Every ConfigMap sits under the name computed from its own owner and data. */
  predicate ConfigsOk(sha: Digest, a: Api) {
    forall k :: k in a.configs ==> k == ConfigMapName(sha, a.configs[k].owner, a.configs[k].data)
  }

  ghost predicate PoliciesOk(a: Api) {
    forall t :: HasPolicy(a, t) ==> a.policies[PolicyName(t)] == BuildNetworkPolicy(t)
  }

  predicate PodOk(sha: Digest, a: Api, p: Pod) {
    && Knows(a, p.task, p.rv) && p.spec == a.tasks[p.task][p.rv].spec
    && p.built == BuildPod(sha, p.task, p.spec)
    && HasConfig(sha, a, p.task, p.spec)
    && HasPolicy(a, p.task)
  }

  predicate Prepared(sha: Digest, a: Api, at: Worker) {
    match at
    case Configured(t, rv) => Knows(a, t, rv) && HasConfig(sha, a, t, a.tasks[t][rv].spec)
    case Secured(t, rv) => Knows(a, t, rv) && HasConfig(sha, a, t, a.tasks[t][rv].spec) && HasPolicy(a, t)
    case _ => true
  }

  ghost predicate ObjectsInv(sha: Digest, c: State) {
    && ConfigsOk(sha, c.api) && PoliciesOk(c.api)
    && (forall p :: p in c.api.pods ==> PodOk(sha, c.api, c.api.pods[p]))
    && (forall w :: w in c.workers ==> Prepared(sha, c.api, c.workers[w]))
  }

  /** ConfigMaps and policies are only added. */
  predicate Grows(a: Api, a': Api) {
    a.configs.Keys <= a'.configs.Keys && a.policies.Keys <= a'.policies.Keys && Extends(a, a')
  }

  lemma StepGrows(sha: Digest, c: State, action: Action)
    ensures Grows(c.api, Step(sha, c, action).api)
  {
    StepExtends(sha, c, action);
    hide DecideFor, Extends;
  }

  lemma StepKeepsMaps(sha: Digest, c: State, action: Action)
    requires ConfigsOk(sha, c.api) && PoliciesOk(c.api)
    ensures ConfigsOk(sha, Step(sha, c, action).api) && PoliciesOk(Step(sha, c, action).api)
  {
    var a, a' := c.api, Step(sha, c, action).api;
    if action.EnsurePolicy? && At(c, action.w).Configured? {
      var t := At(c, action.w).task;
      forall u | HasPolicy(a', u) ensures a'.policies[PolicyName(u)] == BuildNetworkPolicy(u) {
        if PolicyName(u) == PolicyName(t) { PolicyNameInjective(u, t); } else { assert HasPolicy(a, u); }
      }
    } else {
      assert a'.policies == a.policies;
      forall u | HasPolicy(a', u) ensures HasPolicy(a, u) {}
    }
  }

  /** Only CreatePod adds a pod, and nothing but the view of a pod ever changes. */
  lemma StepOnPods(sha: Digest, c: State, action: Action, p: string)
    requires p in Step(sha, c, action).api.pods
    ensures var c' := Step(sha, c, action);
            if p in c.api.pods then c'.api.pods[p].(view := Missing) == c.api.pods[p].(view := Missing)
            else
              && action.CreatePod? && At(c, action.w).Secured?
              && Knows(c.api, At(c, action.w).task, At(c, action.w).rv)
              && c'.api == WithPod(sha, c.api, At(c, action.w).task, At(c, action.w).rv, p)
  {
    hide DecideFor, BuildPod;
  }

  lemma StepKeepsPodOk(sha: Digest, c: State, action: Action, p: string)
    requires ObjectsInv(sha, c) && p in Step(sha, c, action).api.pods
    ensures PodOk(sha, Step(sha, c, action).api, Step(sha, c, action).api.pods[p])
  {
    hide Step, BuildPod, ConfigsOk, PoliciesOk;
    StepGrows(sha, c, action);
    StepOnPods(sha, c, action, p);
    if p in c.api.pods {
      assert PodOk(sha, c.api, c.api.pods[p]);
    } else {
      assert Prepared(sha, c.api, At(c, action.w));
    }
  }

  /** A call gets its ConfigMap and its policy in the step that moves it on. */
  lemma StepPrepares(sha: Digest, c: State, action: Action, w: nat)
    requires w in Step(sha, c, action).workers && Step(sha, c, action).workers[w] != At(c, w)
    ensures var c' := Step(sha, c, action);
            match c'.workers[w]
            case Configured(t, rv) =>
              && At(c, w) == Holding(t, rv) && Knows(c.api, t, rv)
              && c'.api == WithConfig(sha, c.api, t, c.api.tasks[t][rv].spec)
            case Secured(t, rv) => At(c, w) == Configured(t, rv) && c'.api == WithPolicy(c.api, t)
            case _ => true
  {
    hide DecideFor, BuildPod, WithStatus, WithConfig, WithPolicy;
  }

  lemma StepKeepsPrepared(sha: Digest, c: State, action: Action, w: nat)
    requires ObjectsInv(sha, c) && w in Step(sha, c, action).workers
    ensures Prepared(sha, Step(sha, c, action).api, Step(sha, c, action).workers[w])
  {
    hide Step;
    StepGrows(sha, c, action);
    assert Prepared(sha, c.api, At(c, w));
    hide ObjectsInv;
    if Step(sha, c, action).workers[w] != At(c, w) {
      StepPrepares(sha, c, action, w);
    }
  }

  lemma {:induction false} ObjectsAlways(sha: Digest, c: State, actions: seq<Action>)
    requires ObjectsInv(sha, c)
    ensures ObjectsInv(sha, Run(sha, c, actions))
    decreases actions
  {
    if actions != [] {
      var c' := Step(sha, c, actions[0]);
      StepKeepsMaps(sha, c, actions[0]);
      forall p | p in c'.api.pods ensures PodOk(sha, c'.api, c'.api.pods[p]) {
        StepKeepsPodOk(sha, c, actions[0], p);
      }
      forall w | w in c'.workers ensures Prepared(sha, c'.api, c'.workers[w]) {
        StepKeepsPrepared(sha, c, actions[0], w);
      }
      hide Step;
      ObjectsAlways(sha, c', actions[1..]);
    }
  }

  /** In every reachable state, for every pod: it was built from a stored version of its task; the
      ConfigMap it mounts exists, belongs to the pod's own task and carries data with the digest
      of the spec the pod was built from (so the very spec, unless two specs collide under
      SHA-256); and a policy that selects the pod denies it all egress. `ref` is whatever the
      operator's own lookup answers for the pod. */
  lemma EveryPodIsEquipped(sha: Digest, actions: seq<Action>, name: string, ref: Option<Projection>)
    requires FixedWidth(sha)
    requires name in Run(sha, Init, actions).api.pods
    requires FirstMatch(Run(sha, Init, actions).api.pods[name].built, "task", TASK_ITEM, ref)
    ensures var a := Run(sha, Init, actions).api;
            var pod := a.pods[name];
            && Knows(a, pod.task, pod.rv) && pod.spec == a.tasks[pod.task][pod.rv].spec
            && HasConfigMap(pod.built, "task", TASK_ITEM)
            && ref.Some? && ref.value.ConfigMapProjection? && ref.value.name in a.configs
            && a.configs[ref.value.name].owner == pod.task
            && sha(a.configs[ref.value.name].data) == sha(pod.spec)
            && PolicyName(pod.task) in a.policies
            && Selects(a.policies[PolicyName(pod.task)], pod.built)
            && DeniesAllEgress(a.policies[PolicyName(pod.task)])
  {
    ObjectsAlways(sha, Init, actions);
    hide Run, FirstMatch;
    var a := Run(sha, Init, actions).api;
    var pod := a.pods[name];
    assert PodOk(sha, a, pod);
    BuiltPodReference(sha, pod.task, pod.spec, ref);
    BuiltPodHasConfigMap(sha, pod.task, pod.spec);
    var cm := a.configs[ref.value.name];
    ConfigMapNameIff(sha, pod.task, pod.spec, cm.owner, cm.data);
  }
}
