/** What the operator starts on its own, and that a failure stops it until a user steps in. */
module Automation {
  import opened Types
  import opened NodeSteps
  import opened Protocol
  import opened PlanShape
  import opened OneAtATime

  predicate HasFailed(s: State) { s.op.Some? && s.op.value.phase.ClusterFailed? }

  /** A new operation has just been put in place. */
  predicate Begins(s: State, t: State) {
    t.op.Some? && t.op.value.phase.ClusterPending? && t.op != s.op
  }

  /** Only taking in a user's request replaces a failed operation. */
  lemma OnlyUsersReplaceFailed(s: State, a: Action, t: State)
    requires ShapeInv(s) && HasFailed(s) && Step(s, a, t)
    ensures t.op == s.op || (a.Intake? && s.request.Some?)
    ensures !a.StartEntry?
  {
    hide NodeMove, Lists, Refused, Slots, Less;
    if Elsewhere(a) {
      hide Step;
      ElsewhereKeepsPlan(s, a, t);
    }
  }

  lemma NoRequestAppears(s: State, a: Action, t: State)
    requires Step(s, a, t) && s.request.None? && !a.UserRequest?
    ensures t.request.None?
  {
    hide NodeMove, Lists, Refused, Slots, Less, Current;
    if Elsewhere(a) {
      hide Step;
      ElsewhereKeepsPlan(s, a, t);
    }
  }

  /** Automatic operations begin only where there is none, or the last one is Done. */
  lemma BeginsFromRest(s: State, a: Action, t: State)
    requires ShapeInv(s) && Step(s, a, t) && s.request.None? && Begins(s, t)
    ensures Rested(s) && (a.AutoBootstrap? || a.AutoWindow?)
  {
    hide NodeMove, Lists, Refused, Slots, Less, Current, AutoBootstrapStep;
    if Elsewhere(a) {
      hide Step;
      ElsewhereKeepsPlan(s, a, t);
    } else if a.AutoBootstrap? {
      assert AutoBootstrapStep(s, t);
      RestedForBootstrap(s, t);
    }
  }

  lemma RestedForBootstrap(s: State, t: State)
    requires AutoBootstrapStep(s, t)
    ensures Rested(s)
  {
  }

  ghost predicate Unattended(states: seq<State>, actions: seq<Action>) {
    && IsRun(states, actions)
    && forall i :: 0 <= i < |actions| ==> !actions[i].UserRequest?
  }

  lemma {:induction false} RequestsStayEmpty(states: seq<State>, actions: seq<Action>, k: nat)
    requires Unattended(states, actions) && k < |states| && states[0].request.None? && ShapeInv(states[0])
    ensures states[k].request.None? && ShapeInv(states[k])
  {
    hide Step, ShapeInv;
    if k > 0 {
      RequestsStayEmpty(states, actions, k - 1);
      NoRequestAppears(states[k - 1], actions[k - 1], states[k]);
      StepKeepsShape(states[k - 1], actions[k - 1], states[k]);
    }
  }

  /** Without a user request a failed cluster operation stays as it is forever, and starts nothing more on any node. */
  lemma {:induction false} FailureLatches(states: seq<State>, actions: seq<Action>, i: nat, k: nat)
    requires Unattended(states, actions) && i <= k < |states| && states[0].request.None? && ShapeInv(states[0])
    requires HasFailed(states[i])
    ensures states[k].op == states[i].op
    ensures k < |actions| ==> !actions[k].StartEntry?
  {
    hide Step, ShapeInv;
    RequestsStayEmpty(states, actions, k);
    if i < k {
      FailureLatches(states, actions, i, k - 1);
      RequestsStayEmpty(states, actions, k - 1);
      OnlyUsersReplaceFailed(states[k - 1], actions[k - 1], states[k]);
    }
    if k < |actions| { OnlyUsersReplaceFailed(states[k], actions[k], states[k + 1]); }
  }

  ghost predicate Provisioned(s: State, x: Name) { x in s.members && NodeOf(s, x).provisioned == Yes }

  /**
   * Whatever begins in an unattended run begins from rest. It is a RollingApply, or otherwise a
   * KubernetesUpgrade, exactly as the configuration of some provisioned node is out of sync or not; and it
   * is a ClusterBootstrap only over control planes that are all ready, with nothing behind them but a
   * Provision that is Done.
   */
  lemma AutomaticStarts(states: seq<State>, actions: seq<Action>, k: nat)
    requires Unattended(states, actions) && k < |actions| && states[0].request.None? && ShapeInv(states[0])
    requires Begins(states[k], states[k + 1])
    ensures states[k].op.None? || states[k].op.value.phase.ClusterDone?
    ensures actions[k].AutoBootstrap? <==> states[k + 1].op.value.kind.ClusterBootstrap?
    ensures actions[k].AutoWindow? ==>
              var apply := exists x :: Provisioned(states[k], x) && NodeOf(states[k], x).configInSync == No;
              && (apply <==> states[k + 1].op.value.kind.RollingApply?)
              && (!apply <==> states[k + 1].op.value.kind.KubernetesUpgrade?)
    ensures states[k + 1].op.value.kind.KubernetesUpgrade? ==>
              && (exists x :: Provisioned(states[k], x) && NodeOf(states[k], x).k8sInSync == No)
              && (forall x :: Provisioned(states[k], x) ==> NodeOf(states[k], x).configInSync != No)
    ensures states[k + 1].op.value.kind.ClusterBootstrap? ==>
              && (exists x :: Provisioned(states[k], x) && NodeOf(states[k], x).role.Controlplane?)
              && forall x :: Provisioned(states[k], x) && NodeOf(states[k], x).role.Controlplane? ==>
                   var n := NodeOf(states[k], x);
                   n.ready == Yes && (n.op.None? || (n.op.value.job.kind.Provision? && n.op.value.phase.Done?))
  {
    RequestsStayEmpty(states, actions, k);
    BeginsFromRest(states[k], actions[k], states[k + 1]);
    hide Unattended;
    if actions[k].AutoWindow? { WindowKind(states[k], states[k + 1]); } else { BootstrapKind(states[k], states[k + 1]); }
  }

  /** The window applies configurations exactly if some provisioned node is out of sync, and upgrades Kubernetes otherwise. */
  lemma WindowKind(s: State, t: State)
    requires Step(s, AutoWindow, t)
    ensures t.op.Some? && t.op.value.phase.ClusterPending? && t.flight.NoFlight?
    ensures t.op.value.kind.RollingApply? <==> exists x :: Provisioned(s, x) && NodeOf(s, x).configInSync == No
    ensures !t.op.value.kind.RollingApply? ==> t.op.value.kind.KubernetesUpgrade? && exists x :: Provisioned(s, x) && NodeOf(s, x).k8sInSync == No
  {
    if SomeOutOfSync(s) {
      var x :| x in s.members && Eligible(NodeOf(s, x)) && NodeOf(s, x).configInSync == No;
      assert Provisioned(s, x);
    } else {
      var x :| x in s.members && Eligible(NodeOf(s, x)) && NodeOf(s, x).k8sInSync == No;
      assert Provisioned(s, x);
    }
  }

  lemma BootstrapKind(s: State, t: State)
    requires Step(s, AutoBootstrap, t)
    ensures t.op.Some? && t.op.value.phase.ClusterPending? && t.op.value.kind.ClusterBootstrap?
    ensures exists x :: Provisioned(s, x) && NodeOf(s, x).role.Controlplane?
    ensures forall x :: Provisioned(s, x) && NodeOf(s, x).role.Controlplane? ==>
              var n := NodeOf(s, x);
              n.ready == Yes && (n.op.None? || (n.op.value.job.kind.Provision? && n.op.value.phase.Done?))
  {
    var x :| x in s.members && Eligible(NodeOf(s, x)) && NodeOf(s, x).role.Controlplane?;
    assert Provisioned(s, x);
  }

  /** What is taken in is what was asked for. */
  lemma BeginsAsRequested(s: State, a: Action, t: State)
    requires ShapeInv(s) && Step(s, a, t) && s.request.Some? && Begins(s, t)
    ensures a.Intake? && t.op.value.kind == s.request.value && t.flight.Clearing?
  {
    hide NodeMove, Lists, Refused, Slots, Less, Current, AutoBootstrapStep;
    if Elsewhere(a) {
      hide Step;
      ElsewhereKeepsPlan(s, a, t);
    } else if a.AutoBootstrap? {
      assert AutoBootstrapStep(s, t);
      NoBootstrapOverRequest(s, t);
    }
  }

  lemma NoBootstrapOverRequest(s: State, t: State)
    requires AutoBootstrapStep(s, t)
    ensures s.request.None?
  {
  }

  /**
   * The worst case: once an unattended cluster operation has failed, nobody but the one node it
   * failed on, if any, is ever left with an unfinished operation.
   */
  lemma {:induction false} WorstCaseIsOneNode(states: seq<State>, actions: seq<Action>, i: nat, k: nat, x: Name)
    requires Unattended(states, actions) && i <= k < |states| && Initial(states[0]) && HasFailed(states[i])
    requires forall j :: 0 <= j < |actions| ==> Allowed(states[j], actions[j])
    requires Open(states[k], x)
    ensures Open(states[i], x) && AtMostOne(states[k])
  {
    hide Step, Allowed, Initial;
    InvOverRuns(states, actions, k);
    if i < k {
      InvOverRuns(states, actions, 0);
      RestedAtFirst(states[0]);
      FailureLatches(states, actions, i, k - 1);
      OpenedOnlyByStart(states[k - 1], actions[k - 1], states[k], x);
      WorstCaseIsOneNode(states, actions, i, k - 1, x);
    }
  }

  lemma RestedAtFirst(s: State)
    requires Initial(s)
    ensures s.request.None? && ShapeInv(s)
  {
  }
}
