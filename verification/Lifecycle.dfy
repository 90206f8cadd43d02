/** A task from its creation to the end of its pod: the safety laws of the other modules would
    also hold of an operator that does nothing; this one does what it is for. */
module Lifecycle {
  import opened Options
  import opened Objects
  import opened TaskStatus
  import opened Cluster
  import opened ClusterPods
  import ClusterHistory
  import opened Reconciler

  /** The first call that reaches the pod creation, completed. */
  function Creation(suffix: string): seq<Action> {
    [CreatePod(0, suffix), UpdateStatus(0)]
  }

  /** The pod moves, and one more call sees it. */
  function Visit(t: string, pod: string, status: PodStatus, now: Time): seq<Action> {
    [MovePod(pod, Present(status)), Fetch(0, t, 2), Look(0, now), UpdateStatus(0)]
  }

  /** After the creation: one pod, named in version 2. */
  predicate Provisioned(sha: Digest, c: State, t: string, spec: string, pod: string) {
    && At(c, 0).Idle? && IsCurrent(c.api, t, 2) && pod in c.api.pods && pod != ""
    && c.api.tasks[t][2] == Version(spec, Status(Provisioning, pod, "", None, None), false)
    && c.api.pods[pod].built == BuildPod(sha, t, spec)
  }

  lemma CreationDone(sha: Digest, c: State, t: string, spec: string, suffix: string)
    requires At(c, 0) == Secured(t, 1) && c.api.pods == map[] && IsCurrent(c.api, t, 1)
    requires c.api.tasks[t][1] == Version(spec, Fresh.(phase := Pending), false)
    ensures Provisioned(sha, Run(sha, c, Creation(suffix)), t, spec, PodName(t, suffix))
  {
    var pod, v := PodName(t, suffix), c.api.tasks[t][1];
    var c1 := Step(sha, c, CreatePod(0, suffix));
    ClusterHistory.PodNameNotEmpty(t, suffix);
    RunOne(sha, c, CreatePod(0, suffix));
    RunSnoc(sha, c, [CreatePod(0, suffix)], UpdateStatus(0));
    assert [CreatePod(0, suffix)] + [UpdateStatus(0)] == Creation(suffix);
    PodStep(sha, c, 0, t, 1, v, suffix);
    WriteStep(sha, c1, 0);
    hide Run, Step, PodName, BuildPod;
  }

  lemma RunFour(sha: Digest, c: State, a: Action, b: Action, x: Action, y: Action)
    ensures Run(sha, c, [a, b, x, y]) == Step(sha, Step(sha, Step(sha, Step(sha, c, a), b), x), y)
  {
    RunThree(sha, c, a, b, x);
    RunSnoc(sha, c, [a, b, x], y);
    assert [a, b, x] + [y] == [a, b, x, y];
    hide Step, Run;
  }

  lemma MoveStep(sha: Digest, c: State, pod: string, view: PodView)
    requires pod in c.api.pods
    ensures var c' := Step(sha, c, MovePod(pod, view));
            && c'.workers == c.workers && c'.api.tasks == c.api.tasks
            && pod in c'.api.pods && c'.api.pods[pod] == c.api.pods[pod].(view := view)
  {
  }

  /** Nothing is written by a call that has nothing to write. */
  lemma IdleWrite(sha: Digest, c: State, w: nat)
    requires At(c, w).Idle?
    ensures Step(sha, c, UpdateStatus(w)) == c
  {
  }

  lemma VisitDone(sha: Digest, c: State, t: string, spec: string, pod: string, status: PodStatus, now: Time)
    requires Provisioned(sha, c, t, spec, pod)
    ensures StatusIn(Run(sha, c, Visit(t, pod, status, now)).api, t) ==
            Some(Reconciled(Status(Provisioning, pod, "", None, None), Present(status), pod, now))
  {
    hide Run, Step, BuildPod, StatusIn;
    var v := c.api.tasks[t][2];
    var c1 := Step(sha, c, MovePod(pod, Present(status)));
    RunFour(sha, c, MovePod(pod, Present(status)), Fetch(0, t, 2), Look(0, now), UpdateStatus(0));
    MoveStep(sha, c, pod, Present(status));
    FetchStep(sha, c1, 0, t, 2);
    var c2 := Set(c1, 0, Holding(t, 2));
    BuiltPodHasConfigMap(sha, t, spec);
    assert ConfigFound(c2.api, pod) && ViewOf(c2.api, pod) == Present(status);
    DecideCases(v.status, false, Present(status), true, pod, now);
    LookStep(sha, c2, 0, t, 2, v, now);
    var c3 := Step(sha, c2, Look(0, now));
    hide Reconciled, Decide;
    if DecideFor(c2.api, v, now).Quit? {
      IdleWrite(sha, c3, 0);
      CurrentStatus(c3.api, t, 2);
    } else {
      WriteStep(sha, c3, 0);
    }
  }

  lemma CurrentStatus(a: Api, t: string, rv: nat)
    requires IsCurrent(a, t, rv)
    ensures StatusIn(a, t) == Some(a.tasks[t][rv].status)
  {
  }

  /** For every task, spec and pod status: a run from the empty cluster in which the task gets its
      pod, the pod reaches that status and one more call sees it, ends with the stored status
      that the pod calls for. */
  lemma TaskFollowsPod(sha: Digest, t: string, spec: string, suffix: string, status: PodStatus, t1: Time, t2: Time)
    ensures var pod := PodName(t, suffix);
            var c := Run(sha, Init, Preparation(t, spec, t1) + Creation(suffix) + Visit(t, pod, status, t2));
            match status.phase
            case PodPending => StatusIn(c.api, t) == Some(Status(Provisioning, pod, "", None, None))
            case PodRunning => StatusIn(c.api, t) == Some(Status(Running, pod, "", Some(t2), None))
            case PodSucceeded =>
              StatusIn(c.api, t) == Some(Status(Completed, pod, "Pod completed successfully.", None, Some(t2)))
            case PodFailed =>
              if status.reason == "Evicted"
              then StatusIn(c.api, t) == Some(Status(Evicted, pod, "Pod was evicted.", None, Some(t2)))
              else StatusIn(c.api, t) == Some(Status(Failed, pod, "Pod failed.", None, Some(t2)))
            case PodUnknown => StatusIn(c.api, t) == Some(Status(Failed, pod, "Pod in unexpected phase", None, Some(t2)))
  {
    hide Run, StatusIn, PodName, Reconciled;
    var pod := PodName(t, suffix);
    var prepared := Run(sha, Init, Preparation(t, spec, t1));
    ClusterPods.Prepared(sha, t, spec, t1);
    CreationDone(sha, prepared, t, spec, suffix);
    RunConcat(sha, Init, Preparation(t, spec, t1), Creation(suffix));
    VisitDone(sha, Run(sha, prepared, Creation(suffix)), t, spec, pod, status, t2);
    RunConcat(sha, Init, Preparation(t, spec, t1) + Creation(suffix), Visit(t, pod, status, t2));
    ClusterHistory.PodNameNotEmpty(t, suffix);
    CallStores(Status(Provisioning, pod, "", None, None), Present(status), pod, t2);
  }
}
