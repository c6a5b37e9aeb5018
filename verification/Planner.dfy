/** How the cluster operations build their plans, step by step. `None` is a refusal. */
module Planner {
  import opened Types
  import opened Protocol
  import opened EligibleNodes

  predicate FirstBusy(s: State, nodes: seq<Name>, k: int)
    requires Known(s, nodes)
  {
    0 <= k < |nodes| && !Idle(NodeOf(s, nodes[k])) && forall i :: 0 <= i < k ==> Idle(NodeOf(s, nodes[i]))
  }

  /** The first of the nodes with an unfinished operation, if there is one. */
  method OtherOpsInProgress(s: State, nodes: seq<Name>) returns (found: Option<Name>)
    requires Known(s, nodes)
    ensures found.Some? <==> Conflict(s, nodes)
    ensures found.Some? ==> exists k :: FirstBusy(s, nodes, k) && found.value == nodes[k]
  {
    for k := 0 to |nodes|
      invariant forall i :: 0 <= i < k ==> Idle(NodeOf(s, nodes[i]))
    {
      if !Idle(NodeOf(s, nodes[k])) {
        assert FirstBusy(s, nodes, k);
        return Some(nodes[k]);
      }
    }
    found := None;
  }

  predicate Unfinished(s: State, nodes: seq<Name>)
    requires Known(s, nodes)
  {
    exists x :: x in nodes && var o := NodeOf(s, x).op; o.Some? && !o.value.phase.Done? && !o.value.phase.Failed?
  }

  /** A node that is not ready, or whose configuration has drifted. */
  predicate Troubled(s: State, nodes: seq<Name>)
    requires Known(s, nodes)
  {
    exists x :: x in nodes && (NodeOf(s, x).ready != Yes || NodeOf(s, x).drift == Yes)
  }

  /** One Pending entry for each of the nodes, in their order, for a safe operation of this kind. */
  predicate OnePendingEach(plan: seq<Entry>, from: nat, nodes: seq<Name>, kind: OpKind, c: Component) {
    && from + |nodes| <= |plan|
    && forall i :: from <= i < from + |nodes| ==>
         && plan[i].slot.node == nodes[i - from] && plan[i].slot.job.kind == kind && plan[i].slot.job.component == c
         && !plan[i].slot.job.unsafe && plan[i].phase.Pending?
  }

  /** One loop over nodes, appending a Pending entry for each. */
  method AppendStage(plan: seq<Entry>, nodes: seq<Name>, kind: OpKind, c: Component) returns (r: seq<Entry>)
    ensures r == plan + NewPlan(Stage(nodes, kind, c))
  {
    r := plan;
    for i := 0 to |nodes|
      invariant r == plan + NewPlan(Stage(nodes, kind, c))[..i]
    {
      r := r + [Entry(Slot(nodes[i], PlainJob(kind, c)), Pending, 0)];
    }
  }

  method PlanReboot(s: State, nodes: seq<Name>) returns (plan: Option<seq<Entry>>)
    requires Known(s, nodes)
    ensures plan == if Conflict(s, nodes) then None else Some(NewPlan(Stage(nodes, Reboot, NoComponent)))
    ensures plan.None? <==> Unfinished(s, nodes)
    ensures plan.Some? ==> |plan.value| == |nodes| && OnePendingEach(plan.value, 0, nodes, Reboot, NoComponent)
  {
    var busy := OtherOpsInProgress(s, nodes);
    if busy.Some? { return None; }
    var r := AppendStage([], nodes, Reboot, NoComponent);
    assert [] + NewPlan(Stage(nodes, Reboot, NoComponent)) == NewPlan(Stage(nodes, Reboot, NoComponent));
    plan := Some(r);
  }

  /** All or nothing: one unfit node refuses the plan, wherever in the list it is. */
  method PlanApply(s: State, nodes: seq<Name>) returns (plan: Option<seq<Entry>>)
    requires Known(s, nodes)
    ensures plan == if Conflict(s, nodes) || (exists x :: x in nodes && Unfit(NodeOf(s, x))) then None
                    else Some(NewPlan(Stage(nodes, Apply, NoComponent)))
    ensures plan.None? <==> Unfinished(s, nodes) || Troubled(s, nodes)
    ensures plan.Some? ==> |plan.value| == |nodes| && OnePendingEach(plan.value, 0, nodes, Apply, NoComponent)
  {
    var busy := OtherOpsInProgress(s, nodes);
    if busy.Some? { return None; }
    var r: seq<Entry> := [];
    for i := 0 to |nodes|
      invariant forall j :: 0 <= j < i ==> !Unfit(NodeOf(s, nodes[j]))
      invariant r == NewPlan(Stage(nodes, Apply, NoComponent))[..i]
    {
      var n := NodeOf(s, nodes[i]);
      if n.ready != Yes { return None; }
      if n.drift == Yes { return None; }
      r := r + [Entry(Slot(nodes[i], PlainJob(Apply, NoComponent)), Pending, 0)];
    }
    assert r == NewPlan(Stage(nodes, Apply, NoComponent));
    plan := Some(r);
  }

  lemma NewPlanJoins(a: seq<Slot>, b: seq<Slot>)
    ensures NewPlan(a) + NewPlan(b) == NewPlan(a + b)
  {
  }

  /** The API servers, the controller managers, the schedulers, and then every kubelet. */
  predicate FourStages(plan: seq<Entry>, cps: seq<Name>, ws: seq<Name>) {
    && |plan| == 4 * |cps| + |ws|
    && OnePendingEach(plan, 0, cps, ComponentUpgrade, APIServer)
    && OnePendingEach(plan, |cps|, cps, ComponentUpgrade, ControllerManager)
    && OnePendingEach(plan, 2 * |cps|, cps, ComponentUpgrade, Scheduler)
    && OnePendingEach(plan, 3 * |cps|, cps + ws, ComponentUpgrade, Kubelet)
  }

  lemma UpgradeHasFourStages(cps: seq<Name>, ws: seq<Name>)
    ensures FourStages(NewPlan(UpgradeSlots(cps, ws)), cps, ws)
  {
  }

  method PlanUpgrade(s: State, cps: seq<Name>, ws: seq<Name>) returns (plan: Option<seq<Entry>>)
    requires Known(s, cps + ws)
    ensures plan == if Conflict(s, cps + ws) || (exists x :: x in cps + ws && Unfit(NodeOf(s, x))) then None
                    else Some(NewPlan(UpgradeSlots(cps, ws)))
    ensures plan.None? <==> Unfinished(s, cps + ws) || Troubled(s, cps + ws)
    ensures plan.Some? ==> FourStages(plan.value, cps, ws)
  {
    UpgradeHasFourStages(cps, ws);
    hide FourStages, OnePendingEach;
    var all := cps + ws;
    var busy := OtherOpsInProgress(s, all);
    if busy.Some? { return None; }
    for i := 0 to |all|
      invariant forall j :: 0 <= j < i ==> !Unfit(NodeOf(s, all[j]))
    {
      if NodeOf(s, all[i]).ready != Yes { return None; }
      if NodeOf(s, all[i]).drift == Yes { return None; }
    }
    var r := AppendStage([], cps, ComponentUpgrade, APIServer);
    r := AppendStage(r, cps, ComponentUpgrade, ControllerManager);
    r := AppendStage(r, cps, ComponentUpgrade, Scheduler);
    r := AppendStage(r, all, ComponentUpgrade, Kubelet);
    assert r == NewPlan(UpgradeSlots(cps, ws)) by {
      hide Stage, NewPlan;
      var a, b := Stage(cps, ComponentUpgrade, APIServer), Stage(cps, ComponentUpgrade, ControllerManager);
      var c, d := Stage(cps, ComponentUpgrade, Scheduler), Stage(all, ComponentUpgrade, Kubelet);
      NewPlanJoins(a, b);
      NewPlanJoins(a + b, c);
      NewPlanJoins(a + b + c, d);
      assert [] + NewPlan(a) == NewPlan(a);
    }
    plan := Some(r);
  }

  method PlanBootstrap(s: State, cps: seq<Name>) returns (plan: Option<seq<Entry>>)
    requires Known(s, cps)
    ensures plan == if cps == [] || Conflict(s, cps) || (exists x :: x in cps && UnfitForBootstrap(NodeOf(s, x))) then None
                    else Some(NewPlan(Stage([cps[0]], Bootstrap, NoComponent)))
    ensures plan.None? <==>
              cps == [] || Unfinished(s, cps) ||
              exists x :: x in cps && var n := NodeOf(s, x); n.ready != Yes || (n.configInSync == No && n.needsInitialUpdate != Yes)
    ensures plan.Some? ==> |plan.value| == 1 && OnePendingEach(plan.value, 0, [cps[0]], Bootstrap, NoComponent)
  {
    if |cps| == 0 { return None; }
    var busy := OtherOpsInProgress(s, cps);
    if busy.Some? { return None; }
    for i := 0 to |cps|
      invariant forall j :: 0 <= j < i ==> NodeOf(s, cps[j]).ready == Yes
    {
      if NodeOf(s, cps[i]).ready != Yes { return None; }
    }
    for i := 0 to |cps|
      invariant forall j :: 0 <= j < i ==> !UnfitForBootstrap(NodeOf(s, cps[j]))
    {
      var n := NodeOf(s, cps[i]);
      if n.configInSync == No && n.needsInitialUpdate != Yes { return None; }
    }
    var r := [Entry(Slot(cps[0], PlainJob(Bootstrap, NoComponent)), Pending, 0)];
    assert r == NewPlan(Stage([cps[0]], Bootstrap, NoComponent));
    plan := Some(r);
  }

  /** The plan for the operation at hand, from the sorted lists. */
  method PlanFor(s: State, k: ClusterKind, cps: seq<Name>, ws: seq<Name>) returns (plan: Option<seq<Entry>>)
    requires Known(s, cps + ws) && Known(s, cps)
    ensures plan == if Refused(s, k, cps, ws) then None else Some(NewPlan(Slots(k, cps, ws)))
  {
    match k {
      case RollingReboot => plan := PlanReboot(s, cps + ws);
      case RollingApply => plan := PlanApply(s, cps + ws);
      case KubernetesUpgrade => plan := PlanUpgrade(s, cps, ws);
      case ClusterBootstrap => plan := PlanBootstrap(s, cps);
    }
  }

  /** Whatever order the API lists nodes in, the plan written is the one a Plan step writes. */
  method MakePlan(s: State, items: seq<Name>, cpItems: seq<Name>, wItems: seq<Name>) returns (t: State, cps: seq<Name>, ws: seq<Name>)
    requires Answer(s, items, None) && Answer(s, cpItems, Some(Controlplane)) && Answer(s, wItems, Some(Worker))
    requires s.flight.NoFlight? && s.op.Some? && s.op.value.phase.ClusterPending?
    ensures Step(s, Plan(cps, ws), t)
  {
    var all := ListEligible(s, items, None);
    cps := ListEligible(s, cpItems, Some(Controlplane));
    ws := ListEligible(s, wItems, Some(Worker));
    RoleListIsPlanList(s, cps, Controlplane);
    RoleListIsPlanList(s, ws, Worker);
    // the list of all nodes is the one followed by the other
    AllNodesSplit(s, all, cps, ws);
    hide Lists, EligibleList, Answer, Slots, Refused, Step;
    var k := s.op.value.kind;
    var plan := PlanFor(s, k, cps, ws);
    if plan.None? {
      t := s.(op := Some(ClusterOp(k, ClusterFailed, [], [])));
    } else {
      PlannedOfNewPlan(Slots(k, cps, ws));
      t := s.(op := Some(ClusterOp(k, InProgress, plan.value, Planned(plan.value))));
    }
    PlanIsStep(s, cps, ws, t);
  }

  lemma PlanIsStep(s: State, cps: seq<Name>, ws: seq<Name>, t: State)
    requires s.flight.NoFlight? && s.op.Some? && s.op.value.phase.ClusterPending?
    requires Lists(cps, s, Controlplane) && Lists(ws, s, Worker)
    requires var k := s.op.value.kind;
             t == s.(op := Some(if Refused(s, k, cps, ws) then ClusterOp(k, ClusterFailed, [], [])
                                else ClusterOp(k, InProgress, NewPlan(Slots(k, cps, ws)), Slots(k, cps, ws))))
    ensures Step(s, Plan(cps, ws), t)
  {
    hide Lists, Refused, Slots;
  }

  /** The slots of a plan. */
  function Planned(plan: seq<Entry>): seq<Slot> { seq(|plan|, i requires 0 <= i < |plan| => plan[i].slot) }

  lemma PlannedOfNewPlan(slots: seq<Slot>)
    ensures Planned(NewPlan(slots)) == slots
  {
  }
}
