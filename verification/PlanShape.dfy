/** The sub-operation list of a cluster operation, over every run whatsoever. */
module PlanShape {
  import opened Types
  import opened Protocol

  predicate AllDone(plan: seq<Entry>) { forall j :: 0 <= j < |plan| ==> plan[j].phase.Done? }

  /** Node names and types are those first planned. */
  predicate Matches(plan: seq<Entry>, planned: seq<Slot>) {
    |plan| == |planned| && forall j :: 0 <= j < |plan| ==> plan[j].slot == planned[j]
  }

  predicate WellShaped(plan: seq<Entry>) { Shaped(plan, FirstOpen(plan)) }

  predicate OpShape(o: ClusterOp) {
    match o.phase
    case ClusterPending => o.plan == []
    case InProgress => WellShaped(o.plan) && Matches(o.plan, o.planned)
    case Postflight => AllDone(o.plan) && Matches(o.plan, o.planned)
    case ClusterDone => o.plan == [] || (AllDone(o.plan) && Matches(o.plan, o.planned))
    case ClusterFailed => o.plan == [] || (WellShaped(o.plan) && Matches(o.plan, o.planned))
  }

  /** A start that is still to be confirmed belongs to the entry the runner is at. */
  predicate Owed(f: Flight, o: Option<ClusterOp>) {
    f.Starting? ==>
      && o.Some? && o.value.phase.InProgress?
      && f.entry < |o.value.plan| && f.entry == FirstOpen(o.value.plan) && o.value.plan[f.entry].phase.Pending?
  }

  predicate ShapeInv(s: State) {
    Owed(s.flight, s.op) && (s.op.Some? ==> OpShape(s.op.value))
  }

  lemma NewPlanShape(slots: seq<Slot>)
    ensures WellShaped(NewPlan(slots)) && Matches(NewPlan(slots), slots)
    ensures slots != [] ==> FirstOpen(NewPlan(slots)) == 0
  {
    CurrentIsFirstOpen(NewPlan(slots), 0);
  }

  /** Rewriting the open entry keeps the shape, and moves the runner on exactly when it becomes Done. */
  lemma EntryShape(plan: seq<Entry>, i: nat, e: Entry)
    requires Shaped(plan, i) && i < |plan| && e.slot == plan[i].slot
    requires e.phase.Applying? || e.phase.Done? || e.phase.Failed?
    ensures WellShaped(plan[i := e])
    ensures FirstOpen(plan[i := e]) == if e.phase.Done? then i + 1 else i
    ensures forall planned :: Matches(plan, planned) ==> Matches(plan[i := e], planned)
  {
    CurrentIsFirstOpen(plan[i := e], if e.phase.Done? then i + 1 else i);
  }

  lemma RunnerKeepsShape(s: State, a: Action, t: State)
    requires ShapeInv(s) && Step(s, a, t)
    requires a.StartEntry? || a.ConfirmStart? || a.ObserveEntry? || a.FinishPlan?
    ensures ShapeInv(t)
  {
    match a
    case StartEntry(i) => CurrentIsFirstOpen(s.op.value.plan, i);
    case ConfirmStart => EntryShape(s.op.value.plan, s.flight.entry, t.op.value.plan[s.flight.entry]);
    case ObserveEntry(i) =>
      CurrentIsFirstOpen(s.op.value.plan, i);
      EntryShape(s.op.value.plan, i, t.op.value.plan[i]);
    case FinishPlan => CurrentIsFirstOpen(s.op.value.plan, |s.op.value.plan|);
  }

  lemma StepKeepsShape(s: State, a: Action, t: State)
    requires ShapeInv(s) && Step(s, a, t)
    ensures ShapeInv(t)
  {
    hide Less, Lists, Refused, Slots, Current, Shaped, NodeSteps.NodeMove;
    if Elsewhere(a) {
      hide Step;
      ElsewhereKeepsPlan(s, a, t);
    } else if a.StartEntry? || a.ConfirmStart? || a.ObserveEntry? || a.FinishPlan? {
      hide Step;
      RunnerKeepsShape(s, a, t);
    } else if a.Plan? {
      NewPlanShape(Slots(s.op.value.kind, a.cps, a.ws));
    }
  }

  /**
   * In every state of every run the list reads Done* (Applying | Failed)? Pending*, with the names
   * and types of the plan as first written; past InProgress all of it is Done.
   */
  lemma {:induction false} PlansKeepTheirShape(states: seq<State>, actions: seq<Action>, k: nat)
    requires IsRun(states, actions) && k < |states| && ShapeInv(states[0])
    ensures ShapeInv(states[k])
  {
    hide Step;
    if k > 0 {
      PlansKeepTheirShape(states, actions, k - 1);
      StepKeepsShape(states[k - 1], actions[k - 1], states[k]);
    }
  }

  /** Past planning, an operation keeps its type and the nodes of its plan until it drops the plan. */
  lemma RunnerKeepsNodes(s: State, a: Action, t: State)
    requires Step(s, a, t) && !a.Plan?
    ensures t.op.Some? && t.op.value.plan != [] ==>
              && s.op.Some? && t.op.value.kind == s.op.value.kind
              && (t.op.value.phase.InProgress? ==> s.op.value.phase.InProgress?)
              && |t.op.value.plan| == |s.op.value.plan|
              && forall j :: 0 <= j < |s.op.value.plan| ==> t.op.value.plan[j].slot == s.op.value.plan[j].slot
  {
    hide NodeSteps.NodeMove, Current;
    if Elsewhere(a) {
      hide Step;
      ElsewhereKeepsPlan(s, a, t);
    }
  }

  /** How the cluster controller changes its operation outside of planning. */
  lemma ClusterOpMoves(s: State, a: Action, t: State)
    requires Owed(s.flight, s.op) && Step(s, a, t) && ClusterOnly(a) && !a.Plan?
    ensures t.request == s.request || t.request.None?
    ensures || t.op == s.op
            || (a.Intake? && s.request.Some? && t.op == NewOp(s.request.value))
            || (a.AutoBootstrap? && t.op == NewOp(ClusterBootstrap))
            || (a.AutoWindow? && t.op.Some? && t.op == NewOp(t.op.value.kind) && !t.op.value.kind.ClusterBootstrap?)
            || (s.op.Some? && t.op.Some? && !t.op.value.phase.ClusterPending? && t.op.value.kind == s.op.value.kind &&
                (t.op.value.phase.InProgress? ==> s.op.value.phase.InProgress? && t.op.value.plan != []))
  {
    hide Current;
  }

  /** An entry is started only when everything before it is Done, so never behind a failed one. */
  lemma StartsInOrder(s: State, a: Action, t: State, j: nat)
    requires ShapeInv(s) && Step(s, a, t) && a.StartEntry?
    ensures s.op.Some? && a.i < |s.op.value.plan|
    ensures j < a.i ==> s.op.value.plan[j].phase.Done?
    ensures a.i <= j < |s.op.value.plan| ==> s.op.value.plan[j].phase.Pending?
  {
    CurrentIsFirstOpen(s.op.value.plan, a.i);
  }
}
