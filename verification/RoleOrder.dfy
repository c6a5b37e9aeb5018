/** In a rolling operation a worker has to wait for every planned control plane. */
module RoleOrder {
  import opened Types
  import opened NodeSteps
  import opened Protocol
  import opened PlanShape

  predicate IsWorker(s: State, x: Name) { x in s.members && NodeOf(s, x).role.Worker? }
  predicate IsControlplane(s: State, x: Name) { x in s.members && NodeOf(s, x).role.Controlplane? }

  predicate CpsBeforeWorkers(s: State, plan: seq<Entry>) {
    forall j, k :: 0 <= j < k < |plan| && IsWorker(s, plan[j].slot.node) ==> !IsControlplane(s, plan[k].slot.node)
  }

  predicate Rolling(k: ClusterKind) { k.RollingApply? || k.RollingReboot? }

  predicate RoleInv(s: State) {
    s.op.Some? && Rolling(s.op.value.kind) ==> CpsBeforeWorkers(s, s.op.value.plan)
  }

  /** A name that is planned does not come back as another node. */
  predicate NoImpostor(s: State, a: Action) {
    a.Appears? && s.op.Some? ==> forall j :: 0 <= j < |s.op.value.plan| ==> s.op.value.plan[j].slot.node != a.name
  }

  lemma RolesStay(s: State, a: Action, t: State, x: Name)
    requires Step(s, a, t) && (a.Appears? ==> a.name != x)
    ensures IsWorker(t, x) ==> IsWorker(s, x)
    ensures IsControlplane(t, x) ==> IsControlplane(s, x)
  {
    hide Step, NodeMove, AtEntry;
    StepFate(s, a, t, x);
    if a.NodePass? && a.name == x && x in s.members && t.members[x] != s.members[x] {
      PassFacts(NodeOf(s, x), NodeOf(t, x), a.pass, OthersActive(s, x), s.target);
    }
  }

  lemma FreshPlanOrdersRoles(s: State, kind: OpKind, cps: seq<Name>, ws: seq<Name>)
    requires Lists(cps, s, Controlplane) && Lists(ws, s, Worker)
    ensures CpsBeforeWorkers(s, NewPlan(Stage(cps + ws, kind, NoComponent)))
  {
    hide Ascending;
    var plan := NewPlan(Stage(cps + ws, kind, NoComponent));
    forall j | 0 <= j < |plan|
      ensures if j < |cps| then !IsWorker(s, plan[j].slot.node) else !IsControlplane(s, plan[j].slot.node)
    {
      assert plan[j].slot.node == (cps + ws)[j];
      assert if j < |cps| then (cps + ws)[j] in cps else (cps + ws)[j] in ws;
    }
  }

  lemma StepKeepsRoles(s: State, a: Action, t: State)
    requires RoleInv(s) && Step(s, a, t) && NoImpostor(s, a)
    ensures RoleInv(t)
  {
    hide Lists, Refused, NodeMove;
    if a.Plan? {
      hide IsWorker, IsControlplane;
      if t.op.value.phase.InProgress? && Rolling(t.op.value.kind) {
        FreshPlanOrdersRoles(s, if s.op.value.kind.RollingApply? then Apply else Reboot, a.cps, a.ws);
        SameRoles(s, t, t.op.value.plan);
      }
    } else {
      RunnerKeepsNodes(s, a, t);
      hide Step, IsWorker, IsControlplane;
      if t.op.Some? && Rolling(t.op.value.kind) && t.op.value.plan != [] {
        var plan := s.op.value.plan;
        forall j | 0 <= j < |plan|
          ensures IsWorker(t, plan[j].slot.node) ==> IsWorker(s, plan[j].slot.node)
          ensures IsControlplane(t, plan[j].slot.node) ==> IsControlplane(s, plan[j].slot.node)
        {
          RolesStay(s, a, t, plan[j].slot.node);
        }
      }
    }
  }

  lemma SameRoles(s: State, t: State, plan: seq<Entry>)
    requires t.members == s.members && CpsBeforeWorkers(s, plan)
    ensures CpsBeforeWorkers(t, plan)
  {
  }

  lemma {:induction false} RolesOverRuns(states: seq<State>, actions: seq<Action>, k: nat)
    requires IsRun(states, actions) && k < |states| && states[0].op.None? && states[0].flight.NoFlight?
    requires forall i :: 0 <= i < |actions| ==> NoImpostor(states[i], actions[i])
    ensures RoleInv(states[k]) && ShapeInv(states[k])
  {
    hide Step;
    if k > 0 {
      hide NoImpostor, RoleInv, ShapeInv;
      RolesOverRuns(states, actions, k - 1);
      StepKeepsRoles(states[k - 1], actions[k - 1], states[k]);
      StepKeepsShape(states[k - 1], actions[k - 1], states[k]);
    }
  }

  /**
   * In every run, whatever is requested and wherever it crashes: when a rolling apply or reboot
   * starts its operation on a worker, the entry of every planned control plane is already Done.
   */
  lemma ControlPlanesFirst(states: seq<State>, actions: seq<Action>, k: nat, j: nat)
    requires IsRun(states, actions) && k < |actions| && states[0].op.None? && states[0].flight.NoFlight?
    requires forall i :: 0 <= i < |actions| ==> NoImpostor(states[i], actions[i])
    requires actions[k].StartEntry? && states[k].op.Some? && Rolling(states[k].op.value.kind)
    requires actions[k].i < |states[k].op.value.plan| && j < |states[k].op.value.plan|
    requires IsWorker(states[k], states[k].op.value.plan[actions[k].i].slot.node)
    requires IsControlplane(states[k], states[k].op.value.plan[j].slot.node)
    ensures states[k].op.value.plan[j].phase.Done?
  {
    hide Step, NoImpostor;
    RolesOverRuns(states, actions, k);
    StartsInOrder(states[k], actions[k], states[k + 1], j);
  }
}
