/** Rolling operations keep at most one node unfinished, through overrides, failures and crashes. */
module OneAtATime {
  import opened Types
  import opened NodeSteps
  import opened Protocol
  import opened PlanShape

  /** An operation other than Provision that has not reached Done or Failed. */
  predicate Unfinished(n: Node) {
    n.op.Some? && !n.op.value.job.kind.Provision? && !n.op.value.phase.Done? && !n.op.value.phase.Failed?
  }

  predicate Open(s: State, x: Name) { x in s.members && Unfinished(NodeOf(s, x)) }

  ghost predicate AtMostOne(s: State) { forall x, y :: Open(s, x) && Open(s, y) ==> x == y }

  ghost predicate Quiet(s: State) { forall x :: !Open(s, x) }

  /**
   * Users may request every cluster operation but Bootstrap, and any Provision on any node, at any
   * time. Nothing else starts a node operation, and a node that appears is not a planned one.
   */
  predicate Allowed(s: State, a: Action) {
    && (a.UserRequest? ==> !a.kind.ClusterBootstrap?)
    && (a.NodeRequest? ==> a.job.kind.Provision?)
    && !a.Cleanup?
    && (a.Appears? && s.op.Some? ==>
          forall j :: 0 <= j < |s.op.value.plan| ==> s.op.value.plan[j].slot.node != a.name)
  }

  predicate NodeSane(n: Node) {
    && ProvisionSane(n)
    && !ResetInProgress(n)
    && (Unfinished(n) ==> n.provisioned == Yes)
  }

  ghost predicate PlanSane(s: State, plan: seq<Entry>) {
    && (forall j :: 0 <= j < |plan| && plan[j].slot.node in s.members ==>
          NodeOf(s, plan[j].slot.node).provisioned == Yes)
    && (forall j :: 0 <= j < |plan| ==> !plan[j].slot.job.kind.Reset?)
    && (forall x :: Open(s, x) ==> FirstOpen(plan) < |plan| && x == plan[FirstOpen(plan)].slot.node)
  }

  /** No operation, or one that is past its plan, or a Bootstrap about to be planned. */
  predicate Resting(s: State) {
    s.op.None? || s.op.value.phase.Postflight? || s.op.value.phase.ClusterDone? ||
    (s.op.value.phase.ClusterPending? && s.op.value.kind.ClusterBootstrap?)
  }

  ghost predicate Inv(s: State) {
    && ShapeInv(s)
    && AtMostOne(s)
    && (forall x :: x in s.members ==> NodeSane(NodeOf(s, x)))
    && s.request != Some(ClusterBootstrap)
    && (Resting(s) ==> Quiet(s))
    && (s.op.Some? && s.op.value.phase.InProgress? ==> PlanSane(s, s.op.value.plan))
  }

  // ---------------------------------------------------------------- nodes

  /** An open node was open before, unless the runner has just started an operation on it. */
  lemma OpenedOnlyByStart(s: State, a: Action, t: State, x: Name)
    requires Step(s, a, t) && Allowed(s, a) && Open(t, x)
    ensures Open(s, x) || (a.StartEntry? && Launches(s, a, x, NodeOf(t, x).op.value.job))
  {
    hide Step, NodeMove, AtEntry;
    StepFate(s, a, t, x);
    if a.NodePass? && a.name == x && x in s.members && t.members[x] != s.members[x] {
      PassFacts(NodeOf(s, x), NodeOf(t, x), a.pass, OthersActive(s, x), s.target);
    }
  }

  /** Nodes stay sane, and provisioned ones stay provisioned. */
  lemma NodeStaysSane(s: State, a: Action, t: State, x: Name)
    requires Step(s, a, t) && Allowed(s, a) && !a.StartEntry? && x in t.members
    requires x in s.members ==> NodeSane(NodeOf(s, x))
    ensures NodeSane(NodeOf(t, x))
    ensures x in s.members && NodeOf(s, x).provisioned == Yes ==> NodeOf(t, x).provisioned == Yes
  {
    hide Step, NodeMove, AtEntry;
    StepFate(s, a, t, x);
    if a.NodePass? && a.name == x && x in s.members && t.members[x] != s.members[x] {
      PassFacts(NodeOf(s, x), NodeOf(t, x), a.pass, OthersActive(s, x), s.target);
      StaysProvisioned(NodeOf(s, x), NodeOf(t, x), a.pass, OthersActive(s, x), s.target);
    }
  }

  // ---------------------------------------------------------------- steps

  lemma ElsewhereKeepsInv(s: State, a: Action, t: State)
    requires Inv(s) && Step(s, a, t) && Allowed(s, a) && Elsewhere(a)
    ensures Inv(t)
  {
    hide Step, Launches, ShapeInv, NodeSane;
    StepKeepsShape(s, a, t);
    ElsewhereKeepsPlan(s, a, t);
    forall x | Open(t, x) ensures Open(s, x) { OpenedOnlyByStart(s, a, t, x); }
    forall x | x in t.members
      ensures NodeSane(NodeOf(t, x))
      ensures x in s.members && NodeOf(s, x).provisioned == Yes ==> NodeOf(t, x).provisioned == Yes
    {
      NodeStaysSane(s, a, t, x);
    }
    if s.op.Some? && s.op.value.phase.InProgress? {
      forall j | 0 <= j < |s.op.value.plan| && s.op.value.plan[j].slot.node in t.members
        ensures NodeOf(t, s.op.value.plan[j].slot.node).provisioned == Yes
      {
        StepFate(s, a, t, s.op.value.plan[j].slot.node);
      }
    }
  }

  lemma SameMembersSameOpen(s: State, t: State)
    requires t.members == s.members
    ensures forall x :: Open(t, x) <==> Open(s, x)
    ensures AtMostOne(s) ==> AtMostOne(t)
  {
  }

  /** A plan that is not refused is written while every node is finished. */
  lemma AcceptedPlanIsQuiet(s: State, cps: seq<Name>, ws: seq<Name>)
    requires Inv(s) && s.op.Some? && s.op.value.phase.ClusterPending?
    requires Lists(cps, s, Controlplane) && Lists(ws, s, Worker)
    requires !Refused(s, s.op.value.kind, cps, ws)
    ensures Quiet(s)
  {
    hide ShapeInv, Less;
    if !s.op.value.kind.ClusterBootstrap? {
      forall x | x in s.members ensures !Open(s, x) {
        if Eligible(NodeOf(s, x)) { assert x in cps + ws; }
      }
    }
  }

  lemma SlotFacts(k: ClusterKind, cps: seq<Name>, ws: seq<Name>, j: nat)
    requires j < |Slots(k, cps, ws)|
    ensures Slots(k, cps, ws)[j].node in cps + ws
    ensures !Slots(k, cps, ws)[j].job.kind.Reset?
  {
  }

  lemma PlanKeepsInv(s: State, a: Action, t: State)
    requires Inv(s) && Step(s, a, t) && a.Plan?
    ensures Inv(t)
  {
    StepKeepsShape(s, a, t);
    hide ShapeInv, NodeSane, Slots, Less, Refused;
    SameMembersSameOpen(s, t);
    if t.op.value.phase.InProgress? {
      AcceptedPlanIsQuiet(s, a.cps, a.ws);
      var plan := t.op.value.plan;
      forall j | 0 <= j < |plan|
        ensures plan[j].slot.node in a.cps + a.ws && !plan[j].slot.job.kind.Reset?
      {
        SlotFacts(s.op.value.kind, a.cps, a.ws, j);
      }
      assert PlanSane(t, plan);
    }
  }

  lemma StartKeepsInv(s: State, a: Action, t: State)
    requires Inv(s) && Step(s, a, t) && a.StartEntry?
    ensures Inv(t)
  {
    StepKeepsShape(s, a, t);
    hide ShapeInv, Shaped;
    var plan := s.op.value.plan;
    CurrentIsFirstOpen(plan, a.i);
    forall x | Open(t, x) ensures x == plan[a.i].slot.node { assert x == plan[a.i].slot.node || Open(s, x); }
  }

  lemma ConfirmKeepsInv(s: State, a: Action, t: State)
    requires Inv(s) && Step(s, a, t) && a.ConfirmStart?
    ensures Inv(t)
  {
    StepKeepsShape(s, a, t);
    ConfirmFacts(s, a, t);
    hide Step;
    EntryShape(s.op.value.plan, s.flight.entry, t.op.value.plan[s.flight.entry]);
    hide ShapeInv, Shaped, NodeSane;
    SameMembersSameOpen(s, t);
  }

  lemma ObserveKeepsInv(s: State, a: Action, t: State)
    requires Inv(s) && Step(s, a, t) && a.ObserveEntry?
    ensures Inv(t)
  {
    StepKeepsShape(s, a, t);
    var plan := s.op.value.plan;
    CurrentIsFirstOpen(plan, a.i);
    EntryShape(plan, a.i, t.op.value.plan[a.i]);
    hide ShapeInv, Shaped, NodeSane;
    SameMembersSameOpen(s, t);
    assert !Open(t, plan[a.i].slot.node);
  }

  /** With its last entry Done, a plan leaves nobody unfinished. */
  lemma FinishedPlanIsQuiet(s: State, a: Action, t: State)
    requires Inv(s) && Step(s, a, t) && a.FinishPlan?
    ensures Quiet(s)
  {
    CurrentIsFirstOpen(s.op.value.plan, |s.op.value.plan|);
    hide NodeSane, ShapeInv, Shaped, AtMostOne;
  }

  /** Where the controller gets to rest, it was at rest before, or has just finished its plan. */
  lemma RestComesFromRest(s: State, a: Action, t: State)
    requires Owed(s.flight, s.op) && Step(s, a, t) && ClusterOnly(a) && !a.Plan? && !a.ObserveEntry? && !a.ConfirmStart?
    requires s.request != Some(ClusterBootstrap)
    ensures Resting(t) ==> Resting(s) || a.FinishPlan?
    ensures t.op.Some? && t.op.value.phase.InProgress? ==> t.op == s.op
    ensures t.request == s.request || t.request.None?
  {
    hide Current;
  }

  lemma RestKeepsInv(s: State, a: Action, t: State)
    requires Inv(s) && Step(s, a, t) && ClusterOnly(a) && !a.Plan? && !a.ObserveEntry? && !a.ConfirmStart?
    ensures Inv(t)
  {
    StepKeepsShape(s, a, t);
    RestComesFromRest(s, a, t);
    ClusterStepKeepsMembers(s, a, t);
    hide Step, NodeSane, ShapeInv, Shaped, Resting;
    SameMembersSameOpen(s, t);
    if a.FinishPlan? { FinishedPlanIsQuiet(s, a, t); }
  }

  lemma StepKeepsInv(s: State, a: Action, t: State)
    requires Inv(s) && Step(s, a, t) && Allowed(s, a)
    ensures Inv(t)
  {
    hide Step, Inv;
    if Elsewhere(a) { ElsewhereKeepsInv(s, a, t); }
    else if a.Plan? { PlanKeepsInv(s, a, t); }
    else if a.StartEntry? { StartKeepsInv(s, a, t); }
    else if a.ConfirmStart? { ConfirmKeepsInv(s, a, t); }
    else if a.ObserveEntry? { ObserveKeepsInv(s, a, t); }
    else { RestKeepsInv(s, a, t); }
  }

  // ---------------------------------------------------------------- runs

  /** No cluster operation yet, and nothing but Provision operations under way. */
  ghost predicate Initial(s: State) {
    && s.op.None? && s.request.None? && s.flight.NoFlight?
    && forall x :: x in s.members ==>
         ProvisionSane(NodeOf(s, x)) && (Idle(NodeOf(s, x)) || KindOf(NodeOf(s, x)).Provision?)
  }

  lemma {:induction false} InvOverRuns(states: seq<State>, actions: seq<Action>, k: nat)
    requires IsRun(states, actions) && k < |states| && Initial(states[0])
    requires forall i :: 0 <= i < |actions| ==> Allowed(states[i], actions[i])
    ensures Inv(states[k])
  {
    hide Step, Allowed;
    if k > 0 {
      InvOverRuns(states, actions, k - 1);
      StepKeepsInv(states[k - 1], actions[k - 1], states[k]);
    }
  }

  /**
   * However users override rolling operations with each other, and wherever the operator crashes,
   * at most one node has an unfinished operation; and a cluster operation that has finished its
   * plan leaves none.
   */
  lemma OneNodeAtATime(states: seq<State>, actions: seq<Action>, k: nat)
    requires IsRun(states, actions) && k < |states| && Initial(states[0])
    requires forall i :: 0 <= i < |actions| ==> Allowed(states[i], actions[i])
    ensures AtMostOne(states[k])
    ensures states[k].op.Some? && states[k].op.value.phase.ClusterDone? ==> Quiet(states[k])
  {
    hide Step, Allowed;
    InvOverRuns(states, actions, k);
  }

  // ---------------------------------------------------------------- why Bootstrap is left out

  /**
   * A Bootstrap plan looks at control planes only. Once such a plan is accepted and its entry
   * started, at most one node is unfinished exactly when no worker was unfinished at planning.
   */
  lemma BootstrapIsSafeIffWorkersRest(s: State, t: State, u: State, cps: seq<Name>, ws: seq<Name>)
    requires s.op.Some? && s.op.value.kind.ClusterBootstrap?
    requires forall x :: Open(s, x) ==> NodeOf(s, x).provisioned == Yes
    requires Step(s, Plan(cps, ws), t) && t.op.value.phase.InProgress? && Step(t, StartEntry(0), u)
    ensures AtMostOne(u) <==> forall x :: x in ws ==> !Open(s, x)
  {
    var c := cps[0];
    assert t.op.value.plan[0].slot.node == c;
    assert Open(u, c);
    forall x | x != c ensures Open(u, x) <==> Open(s, x) && x in ws {
      assert x in u.members <==> x in s.members;
      if x in s.members { assert u.members[x] == s.members[x]; }
    }
    assert c !in ws;
  }

  const Idler := FreshNode(Controlplane).(provisioned := Yes, ready := Yes)
  const Rebooter := FreshNode(Worker).(provisioned := Yes, op := Some(NodeOp(PlainJob(Reboot, NoComponent), Pending, 0)))

  /** A fresh control plane, a worker whose Reboot has not begun, and a user who asks for a Bootstrap. */
  const BusyWorker := State(
    NewOp(ClusterBootstrap), None, NoFlight,
    map["c" := Member(Idler, FreshTrail, false), "w" := Member(Rebooter, FreshTrail, false)], 1, map[], 1)

  const Planned := [Slot("c", PlainJob(Bootstrap, NoComponent))]
  const BusyWorkerPlanned := BusyWorker.(op := Some(ClusterOp(ClusterBootstrap, InProgress, NewPlan(Planned), Planned)))

  lemma BootstrapIsAccepted()
    ensures Step(BusyWorker, Plan(["c"], ["w"]), BusyWorkerPlanned)
  {
    var s := BusyWorker;
    assert Lists(["c"], s, Controlplane) && Lists(["w"], s, Worker);
    assert !Refused(s, ClusterBootstrap, ["c"], ["w"]);
    assert Slots(ClusterBootstrap, ["c"], ["w"]) == Planned;
    hide Lists, Refused, Slots, NewPlan;
  }

  /** Two steps later there are two unfinished nodes. */
  lemma BootstrapBesideBusyWorker() returns (u: State)
    ensures Step(BusyWorker, Plan(["c"], ["w"]), BusyWorkerPlanned) && Step(BusyWorkerPlanned, StartEntry(0), u) && !AtMostOne(u)
  {
    BootstrapIsAccepted();
    var t := BusyWorkerPlanned;
    u := WithMember(t, "c", Member(Idler.(op := Some(NodeOp(PlainJob(Bootstrap, NoComponent), Pending, 1))), FreshTrail, true))
         .(next := 2, flight := Starting(0, 1));
    assert StartStep(t, u, 0);
    assert Step(t, StartEntry(0), u);
    hide Step;
    assert Open(u, "c") && Open(u, "w");
  }
}
