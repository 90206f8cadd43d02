/** The status of an AgentTask and how one Reconcile call decides its successor. */
module TaskStatus {
  import opened Options

  datatype Phase = Unset | Pending | Provisioning | Running | Checkpointing | Completed | Failed | Evicted
  type Time = int

  /** The status fields that Reconcile reads or writes. */
  datatype Status = Status(phase: Phase, podName: string, reason: string,
                           startedAt: Option<Time>, finishedAt: Option<Time>)

  const Fresh := Status(Unset, "", "", None, None)

  predicate Terminal(p: Phase) {
    p == Completed || p == Failed || p == Evicted
  }

  datatype PodPhase = PodPending | PodRunning | PodSucceeded | PodFailed | PodUnknown
  datatype PodStatus = PodStatus(phase: PodPhase, reason: string)
  datatype PodView = Missing | Present(status: PodStatus)

  const SUCCESS := "Pod completed successfully."
  const EVICTED := "Pod was evicted."
  const FAILURE := "Pod failed."
  const UNEXPECTED := "Pod in unexpected phase"
  const NOT_FOUND := "Pod not found"
  const INVALID := "Invalid state"

  function Stamp(t: Option<Time>, now: Time): Option<Time> {
    if t.None? then Some(now) else t
  }

  /** The status a pod's own status calls for. */
  function Observed(s: Status, pod: PodStatus, now: Time): Status {
    match pod.phase
    case PodPending => s.(phase := Provisioning)
    case PodRunning => s.(phase := Running, startedAt := Stamp(s.startedAt, now))
    case PodSucceeded => s.(phase := Completed, reason := SUCCESS, finishedAt := Stamp(s.finishedAt, now))
    case PodFailed =>
      if pod.reason == "Evicted"
      then s.(phase := Evicted, reason := EVICTED, finishedAt := Stamp(s.finishedAt, now))
      else s.(phase := Failed, reason := FAILURE, finishedAt := Stamp(s.finishedAt, now))
    case PodUnknown => s.(phase := Failed, reason := UNEXPECTED, finishedAt := Stamp(s.finishedAt, now))
  }

  /** The switch over the pod phase, with its dirty flag. `write` says whether the status is
      sent to the API server: exactly on a change, or always for an unexpected phase. */
  method UpdateFromPod(before: Status, pod: PodStatus, now: Time) returns (s: Status, write: bool)
    ensures s == Observed(before, pod, now)
    ensures write <==> s != before || pod.phase == PodUnknown
  {
    s := before;
    var updateStatus := false;
    match pod.phase {
      case PodPending =>
        if s.phase != Provisioning { updateStatus := true; }
        s := s.(phase := Provisioning);
      case PodRunning =>
        if s.phase != Running { updateStatus := true; }
        s := s.(phase := Running);
        if s.startedAt == None {
          updateStatus := true;
          s := s.(startedAt := Some(now));
        }
      case PodSucceeded =>
        if s.phase != Completed { updateStatus := true; }
        s := s.(phase := Completed);
        if s.finishedAt == None {
          updateStatus := true;
          s := s.(finishedAt := Some(now));
        }
        if s.reason != SUCCESS {
          s := s.(reason := SUCCESS);
          updateStatus := true;
        }
      case PodFailed =>
        if pod.reason == "Evicted" {
          if s.phase != Evicted { updateStatus := true; }
          s := s.(phase := Evicted);
          if s.reason != EVICTED {
            s := s.(reason := EVICTED);
            updateStatus := true;
          }
        } else {
          if s.phase != Failed { updateStatus := true; }
          s := s.(phase := Failed);
          if s.reason != FAILURE {
            s := s.(reason := FAILURE);
            updateStatus := true;
          }
        }
        if s.finishedAt == None {
          updateStatus := true;
          s := s.(finishedAt := Some(now));
        }
      case PodUnknown =>
        s := s.(phase := Failed, reason := UNEXPECTED);
        if s.finishedAt == None {
          s := s.(finishedAt := Some(now));
        }
        return s, true;
    }
    write := updateStatus;
  }

  /** What one call does with the snapshot it read. */
  datatype Decision = Quit | Provision | Put(status: Status)

  function Decide(s: Status, deleting: bool, view: PodView, hasConfig: bool, now: Time): Decision {
    if deleting then Quit
    else if s.phase == Unset then Put(s.(phase := Pending, podName := ""))
    else if s.podName == "" then
      if s.phase == Pending then Provision
      else Put(s.(phase := Failed, reason := INVALID, finishedAt := Some(now)))
    else
      match view
      case Missing =>
        if Terminal(s.phase) then Quit
        else Put(s.(phase := Failed, reason := NOT_FOUND, finishedAt := Some(now)))
      case Present(pod) =>
        if (pod.phase == PodRunning || pod.phase == PodPending) && !hasConfig then Quit
        else if Observed(s, pod, now) != s || pod.phase == PodUnknown then Put(Observed(s, pod, now))
        else Quit
  }

  /** The status stored after one error-free call that no one else disturbs; `pod` is the
      name the API server gives to a pod created by the call. */
  function Reconciled(s: Status, view: PodView, pod: string, now: Time): Status {
    match Decide(s, false, view, true, now)
    case Quit => s
    case Provision => s.(podName := pod, phase := Provisioning)
    case Put(s') => s'
  }

  /** What one undisturbed call stores, field by field: phase, pod name, reason, start and finish. A
      time once set stays; fields that the pod does not decide stay as they are. */
  lemma CallStores(s: Status, view: PodView, pod: string, now: Time)
    ensures var s', name := Reconciled(s, view, pod, now), s.podName;
            var started := if s.startedAt.Some? then s.startedAt else Some(now);
            var finished := if s.finishedAt.Some? then s.finishedAt else Some(now);
            if s.phase == Unset then s' == Status(Pending, "", s.reason, s.startedAt, s.finishedAt)
            else if name == "" && s.phase == Pending then
              s' == Status(Provisioning, pod, s.reason, s.startedAt, s.finishedAt)
            else if name == "" then s' == Status(Failed, "", "Invalid state", s.startedAt, Some(now))
            else if view.Missing? then
              s' == if s.phase in {Completed, Failed, Evicted} then s
                    else Status(Failed, name, "Pod not found", s.startedAt, Some(now))
            else
              match view.status.phase
              case PodPending => s' == Status(Provisioning, name, s.reason, s.startedAt, s.finishedAt)
              case PodRunning => s' == Status(Running, name, s.reason, started, s.finishedAt)
              case PodSucceeded => s' == Status(Completed, name, "Pod completed successfully.", s.startedAt, finished)
              case PodFailed =>
                if view.status.reason == "Evicted"
                then s' == Status(Evicted, name, "Pod was evicted.", s.startedAt, finished)
                else s' == Status(Failed, name, "Pod failed.", s.startedAt, finished)
              case PodUnknown => s' == Status(Failed, name, "Pod in unexpected phase", s.startedAt, finished)
  {
  }

  /** When a call does what: it does nothing for a task that is being deleted, for a finished one
      whose pod is gone, for a live pod without a readable reference to its ConfigMap, and when
      the status is right already; it provisions exactly a pending task without a pod. */
  lemma DecideCases(s: Status, deleting: bool, view: PodView, hasConfig: bool, pod: string, now: Time)
    ensures var d, s' := Decide(s, deleting, view, hasConfig, now), Reconciled(s, view, pod, now);
            var live := view.Present? && view.status.phase in {PodRunning, PodPending};
            var looks := s.phase != Unset && s.podName != "";
            && (d.Provision? <==> !deleting && s.phase == Pending && s.podName == "")
            && (d.Put? ==> d.status == s')
            && (d.Quit? <==>
                  || deleting
                  || (looks && live && !hasConfig)
                  || (looks && s' == s && !(view.Present? && view.status.phase == PodUnknown)))
  {
  }

  predicate InvalidState(s: Status) {
    s.podName == "" && s.phase != Unset && s.phase != Pending
  }

  /** A run of undisturbed calls, one at each of the given times. */
  function Calls(s: Status, view: PodView, pod: string, times: seq<Time>): Status
    decreases times
  {
    if times == [] then s else Calls(Reconciled(s, view, pod, times[0]), view, pod, times[1..])
  }

  /** Nothing left to do: no call at any time changes the status. */
  ghost predicate Settled(s: Status, view: PodView, pod: string) {
    forall now :: Reconciled(s, view, pod, now) == s
  }

  /** With a pod to look at, one call settles the status. */
  lemma LookSettles(s: Status, view: PodView, pod: string, now: Time)
    requires s.podName != "" && s.phase != Unset
    ensures Settled(Reconciled(s, view, pod, now), view, pod)
  {
  }

  lemma SettledAfterThree(s: Status, view: PodView, pod: string, t1: Time, t2: Time, t3: Time)
    requires pod != "" && !InvalidState(s)
    ensures Settled(Calls(s, view, pod, [t1, t2, t3]), view, pod)
  {
    var s1 := Reconciled(s, view, pod, t1);
    var s2 := Reconciled(s1, view, pod, t2);
    var s3 := Reconciled(s2, view, pod, t3);
    assert s2.podName != "" && s2.phase != Unset;
    LookSettles(s2, view, pod, t3);
    hide Reconciled, Settled;
    assert [t1, t2, t3][1..] == [t2, t3] && [t2, t3][1..] == [t3] && [t3][1..] == [];
    assert Calls(s2, view, pod, [t3]) == Calls(s3, view, pod, []) == s3;
    assert Calls(s1, view, pod, [t2, t3]) == s3;
    assert Calls(s, view, pod, [t1, t2, t3]) == s3;
  }

  lemma {:induction false} SettledStays(s: Status, view: PodView, pod: string, times: seq<Time>)
    requires Settled(s, view, pod)
    ensures Calls(s, view, pod, times) == s
  {
    if times != [] {
      SettledStays(s, view, pod, times[1..]);
    }
  }

  lemma {:induction false} CallsConcat(s: Status, view: PodView, pod: string, a: seq<Time>, b: seq<Time>)
    ensures Calls(s, view, pod, a + b) == Calls(Calls(s, view, pod, a), view, pod, b)
    decreases a
  {
    if a == [] {
      assert a + b == b;
    } else {
      assert (a + b)[1..] == a[1..] + b;
      CallsConcat(Reconciled(s, view, pod, a[0]), view, pod, a[1..], b);
    }
  }

  /** Against a fixed pod state, all calls after the third leave the status alone: for every
      status but an invalid one, and for every run of call times. */
  lemma SettlesInThree(s: Status, view: PodView, pod: string, times: seq<Time>)
    requires pod != "" && !InvalidState(s) && |times| >= 3
    ensures Calls(s, view, pod, times) == Calls(s, view, pod, times[..3])
  {
    assert times[..3] == [times[0], times[1], times[2]];
    SettledAfterThree(s, view, pod, times[0], times[1], times[2]);
    SettledStays(Calls(s, view, pod, times[..3]), view, pod, times[3..]);
    CallsConcat(s, view, pod, times[..3], times[3..]);
    assert times[..3] + times[3..] == times;
  }

  /** Where a fresh task settles, by the state of its pod: all calls from the third on. */
  lemma FreshSettles(view: PodView, pod: string, times: seq<Time>)
    requires pod != "" && |times| >= 3
    ensures var s := Calls(Fresh, view, pod, times);
            match view
            case Missing => s == Status(Failed, pod, "Pod not found", None, Some(times[2]))
            case Present(p) =>
              match p.phase
              case PodPending => s == Status(Provisioning, pod, "", None, None)
              case PodRunning => s == Status(Running, pod, "", Some(times[2]), None)
              case PodSucceeded => s == Status(Completed, pod, "Pod completed successfully.", None, Some(times[2]))
              case PodFailed =>
                if p.reason == "Evicted" then s == Status(Evicted, pod, "Pod was evicted.", None, Some(times[2]))
                else s == Status(Failed, pod, "Pod failed.", None, Some(times[2]))
              case PodUnknown => s == Status(Failed, pod, "Pod in unexpected phase", None, Some(times[2]))
  {
    SettlesInThree(Fresh, view, pod, times);
    var s1 := Status(Pending, "", "", None, None);
    var s2 := Status(Provisioning, pod, "", None, None);
    CallStores(Fresh, view, pod, times[0]);
    CallStores(s1, view, pod, times[1]);
    CallStores(s2, view, pod, times[2]);
    hide Reconciled;
    var three := times[..3];
    assert three[1..][1..][1..] == [];
    assert Calls(Fresh, view, pod, three) == Calls(s1, view, pod, three[1..]) == Calls(s2, view, pod, three[1..][1..])
           == Calls(Reconciled(s2, view, pod, times[2]), view, pod, []);
  }

  /** An invalid status never settles: it stays invalid through every run of calls, and each
      call stamps its own time as the finishing time. */
  lemma {:induction false} InvalidNeverSettles(s: Status, view: PodView, pod: string, times: seq<Time>)
    requires InvalidState(s)
    ensures InvalidState(Calls(s, view, pod, times))
    ensures !Settled(Calls(s, view, pod, times), view, pod)
    ensures times != [] ==> Calls(s, view, pod, times).finishedAt == Some(times[|times| - 1])
    decreases times
  {
    if times != [] {
      InvalidNeverSettles(Reconciled(s, view, pod, times[0]), view, pod, times[1..]);
    } else {
      var t := if s.finishedAt == Some(0) then 1 else 0;
      assert Reconciled(s, view, pod, t) != s;
    }
  }
}
