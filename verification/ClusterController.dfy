/**
 * The cluster controller as it runs: loops, early returns, and writes that may be the last thing
 * the operator gets to do. Every reconcile is shown to be a run of protocol steps, and which ones.
 */
module ClusterController {
  import opened Types
  import opened NodeSteps
  import opened Protocol
  import opened PlanShape
  import opened EligibleNodes
  import opened Planner

  // ---------------------------------------------------------------- what a reconcile is to do

  /** What a reconcile learns from outside the object store. */
  datatype Outside = Outside(
    housekeeping: nat,     // how many defaults, conditions and secrets have to be written first
    newMessage: bool,      // the status message is not about the current entry yet
    autoBootstrap: bool,   // the option is on and no control plane holds etcd data
    inWindow: bool,
    unreadable: bool,      // the node of the current entry cannot be read
    timedOut: bool,        // the current entry has been running for too long
    manifests: bool)       // the manifests were fetched and applied

  predicate Finished(s: State, x: Name) { x in s.members && NodeOf(s, x).op.Some? && Complete(PhaseOf(NodeOf(s, x))) }

  /** One turn of the runner. */
  function RunnerScript(s: State, o: Outside): seq<Action>
    requires s.op.Some?
  {
    var plan := s.op.value.plan;
    var i := FirstOpen(plan);
    if i == |plan| then [FinishPlan]
    else if o.unreadable || plan[i].slot.node !in s.members then [LoseEntry(i)]
    else match plan[i].phase
      case Pending => [StartEntry(i), ConfirmStart]
      case Applying =>
        if Finished(s, plan[i].slot.node) then
          [ObserveEntry(i)] + if PhaseOf(NodeOf(s, plan[i].slot.node)).Failed? then [FailEntry(i)] else []
        else if o.timedOut then [TimeOutEntry(i)]
        else []
      case Failed => [FailEntry(i)]
      case _ => []
  }

  ghost predicate CanAutoBootstrap(s: State) { AutoBootstrapStep(s, s.(op := NewOp(ClusterBootstrap))) }

  ghost predicate CanAutoWindow(s: State) {
    s.flight.NoFlight? && s.request.None? && Rested(s) && (SomeOutOfSync(s) || SomeNeedsKubernetes(s))
  }

  ghost predicate HasControlplane(s: State) {
    exists x :: x in s.members && Eligible(NodeOf(s, x)) && NodeOf(s, x).role.Controlplane?
  }

  /** One reconcile: triggers first, then a request, then the operation at hand. */
  ghost function Script(s: State, o: Outside, cps: seq<Name>, ws: seq<Name>): seq<Action> {
    if o.autoBootstrap && CanAutoBootstrap(s) then [AutoBootstrap, Plan(cps, ws)]
    else if o.inWindow && CanAutoWindow(s) then [AutoWindow]
    else if s.request.Some? then [Intake, ClearRequest]
    else if s.op.None? then []
    else match s.op.value.phase
      case ClusterPending => [Plan(cps, ws)]
      case InProgress => RunnerScript(s, o)
      case Postflight => if s.op.value.kind.KubernetesUpgrade? && HasControlplane(s) && !o.manifests then [] else [FinishOp]
      case ClusterDone => []
      case ClusterFailed => []
  }

  /** What is left of the writes for the script of the runner: a new message takes one. */
  function RunnerBudget(s: State, o: Outside, budget: nat): nat
    requires s.op.Some?
  {
    if FirstOpen(s.op.value.plan) < |s.op.value.plan| && o.newMessage && budget > 0 then budget - 1 else budget
  }

  /** What is left of the writes for the script of a reconcile. */
  ghost function ScriptBudget(s: State, o: Outside, budget: nat): nat {
    var rest := if budget < o.housekeeping then 0 else budget - o.housekeeping;
    if (o.autoBootstrap && CanAutoBootstrap(s)) || (o.inWindow && CanAutoWindow(s)) || s.request.Some? || s.op.None? || !s.op.value.phase.InProgress? then rest
    else RunnerBudget(s, o, rest)
  }

  function Limit(script: seq<Action>, budget: nat): seq<Action> {
    if |script| <= budget then script else script[..budget]
  }

  /** The runner is idle only while its node is at work and time is left. */
  lemma RunnerIdleIff(s: State, o: Outside)
    requires ShapeInv(s) && s.op.Some? && s.op.value.phase.InProgress?
    ensures RunnerScript(s, o) == [] <==>
              var plan, i := s.op.value.plan, FirstOpen(s.op.value.plan);
              && i < |plan| && !o.unreadable && !o.timedOut && plan[i].slot.node in s.members && plan[i].phase.Applying?
              && !Finished(s, plan[i].slot.node)
  {
  }

  /** The runner gives the operation up exactly on a lost or failed entry, a failed node, or one that is late and not done. */
  lemma RunnerFailsIff(s: State, o: Outside)
    requires ShapeInv(s) && s.op.Some? && s.op.value.phase.InProgress?
    ensures (exists a :: a in RunnerScript(s, o) && (a.LoseEntry? || a.FailEntry? || a.TimeOutEntry?)) <==>
              var plan, i := s.op.value.plan, FirstOpen(s.op.value.plan);
              && i < |plan|
              && (|| o.unreadable || plan[i].slot.node !in s.members || plan[i].phase.Failed?
                  || (plan[i].phase.Applying? &&
                      var n := NodeOf(s, plan[i].slot.node);
                      if n.op.None? then o.timedOut
                      else n.op.value.phase.Failed? || (o.timedOut && !n.op.value.phase.Done?)))
  {
    var script := RunnerScript(s, o);
    if script != [] {
      assert script[0] in script;
      if |script| > 1 { assert script[1] in script; }
    }
  }

  /** The runner starts an operation exactly if the first entry that is not Done has not been started and its node is there. */
  lemma RunnerStartsIff(s: State, o: Outside)
    requires ShapeInv(s) && s.op.Some? && s.op.value.phase.InProgress?
    ensures (exists i :: StartEntry(i) in RunnerScript(s, o)) <==>
              var plan, i := s.op.value.plan, FirstOpen(s.op.value.plan);
              i < |plan| && !o.unreadable && plan[i].slot.node in s.members && plan[i].phase.Pending?
    ensures FinishPlan in RunnerScript(s, o) <==> forall e :: e in s.op.value.plan ==> e.phase.Done?
  {
    var script, plan, i := RunnerScript(s, o), s.op.value.plan, FirstOpen(s.op.value.plan);
    if script != [] { assert script[0] in script; }
    if i < |plan| { assert plan[i] in plan; }
  }

  /** A reconcile writes nothing exactly if there is nothing to trigger or take in, and no operation, or one at its end, waiting for its manifests, or with an idle runner. */
  lemma ScriptIdleIff(s: State, o: Outside, cps: seq<Name>, ws: seq<Name>)
    requires ShapeInv(s) && s.flight.NoFlight?
    ensures Script(s, o, cps, ws) == [] <==>
              && s.request.None?
              && !(o.autoBootstrap && CanAutoBootstrap(s)) && !(o.inWindow && CanAutoWindow(s))
              && (|| s.op.None? || s.op.value.phase.ClusterDone? || s.op.value.phase.ClusterFailed?
                  || (s.op.value.phase.InProgress? && RunnerScript(s, o) == [])
                  || (s.op.value.phase.Postflight? && s.op.value.kind.KubernetesUpgrade? && HasControlplane(s) && !o.manifests))
  {
  }

  /** What a maintenance window has put in place: a rolling apply if some provisioned node is out of sync, an upgrade otherwise. */
  ghost predicate Opened(s: State, op: Option<ClusterOp>) {
    var apply := exists x :: x in s.members && NodeOf(s, x).provisioned == Yes && NodeOf(s, x).configInSync == No;
    op == Some(ClusterOp(if apply then RollingApply else KubernetesUpgrade, ClusterPending, [], []))
  }

  // ---------------------------------------------------------------- loops over the nodes

  method AnyOutOfSync(s: State, nodes: seq<Name>) returns (found: bool)
    requires EligibleList(s, nodes, None)
    ensures found <==> SomeOutOfSync(s)
  {
    found := false;
    for i := 0 to |nodes|
      invariant !found && forall j :: 0 <= j < i ==> NodeOf(s, nodes[j]).configInSync != No
    {
      if NodeOf(s, nodes[i]).configInSync == No {
        assert nodes[i] in nodes;
        return true;
      }
    }
    forall x | x in s.members && Eligible(NodeOf(s, x)) ensures NodeOf(s, x).configInSync != No {
      assert Wanted(s, x, None);
    }
  }

  method AnyNeedsKubernetes(s: State, nodes: seq<Name>) returns (found: bool)
    requires EligibleList(s, nodes, None)
    ensures found <==> SomeNeedsKubernetes(s)
  {
    found := false;
    for i := 0 to |nodes|
      invariant !found && forall j :: 0 <= j < i ==> NodeOf(s, nodes[j]).k8sInSync != No
    {
      if NodeOf(s, nodes[i]).k8sInSync == No {
        assert nodes[i] in nodes;
        return true;
      }
    }
    forall x | x in s.members && Eligible(NodeOf(s, x)) ensures NodeOf(s, x).k8sInSync != No {
      assert Wanted(s, x, None);
    }
  }

  method ReadyForBootstrap(s: State, cps: seq<Name>) returns (ready: bool)
    requires EligibleList(s, cps, Some(Controlplane))
    requires s.flight.NoFlight? && s.request.None? && Rested(s)
    ensures ready <==> CanAutoBootstrap(s)
    ensures ready <==>
              && cps != []
              && forall x :: x in cps ==>
                   var n := NodeOf(s, x);
                   n.ready == Yes && (n.op.None? || (n.op.value.job.kind.Provision? && n.op.value.phase.Done?))
  {
    ready := |cps| > 0;
    for i := 0 to |cps|
      invariant ready == (|cps| > 0) && forall j :: 0 <= j < i ==> BootstrapReady(NodeOf(s, cps[j]))
    {
      var n := NodeOf(s, cps[i]);
      assert cps[i] in cps;
      if n.ready != Yes { return false; }
      if n.op.Some? && !PhaseOf(n).Done? { return false; }
      if n.op.Some? && !KindOf(n).Provision? { return false; }
    }
    if |cps| > 0 { assert cps[0] in cps; }
    forall x | x in s.members && Eligible(NodeOf(s, x)) && NodeOf(s, x).role.Controlplane?
      ensures x in cps
    {
      assert Wanted(s, x, Some(Controlplane));
    }
  }

  // ---------------------------------------------------------------- the controller

  function Started(s: State, i: nat): State
    requires AtEntry(s, i, Pending)
  {
    var slot := s.op.value.plan[i].slot;
    var was := s.members[slot.node];
    var node := was.node.(op := Some(NodeOp(slot.job, Pending, s.next)));
    WithMember(s, slot.node, Member(node, was.trail, was.sawBootstrap || slot.job.kind.Bootstrap?))
      .(next := s.next + 1, flight := Starting(i, s.next))
  }

  function Confirmed(s: State): State
    requires s.flight.Starting? && s.op.Some? && s.flight.entry < |s.op.value.plan|
  {
    WithEntry(s, s.flight.entry, s.op.value.plan[s.flight.entry].(phase := Applying, tag := s.flight.id)).(flight := NoFlight)
  }

  lemma CanStart(s: State, i: nat)
    requires AtEntry(s, i, Pending)
    ensures var t := Started(s, i);
            && Step(s, StartEntry(i), t)
            && t.flight == Starting(i, s.next) && t.op == s.op && Step(t, ConfirmStart, Confirmed(t))
  {
    hide Current;
  }

  lemma CanObserve(s: State, i: nat)
    requires AtEntry(s, i, Applying) && Finished(s, s.op.value.plan[i].slot.node)
    ensures var phase := PhaseOf(NodeOf(s, s.op.value.plan[i].slot.node));
            var t := WithEntry(s, i, s.op.value.plan[i].(phase := phase));
            Step(s, ObserveEntry(i), t) && (phase.Failed? ==> Step(t, FailEntry(i), WithClusterPhase(t, ClusterFailed)))
  {
    var phase := PhaseOf(NodeOf(s, s.op.value.plan[i].slot.node));
    var t := WithEntry(s, i, s.op.value.plan[i].(phase := phase));
    assert Step(s, ObserveEntry(i), t) by { hide Current; }
    if phase.Failed? {
      assert Running(t, i);
      CanFail(t, i);
    }
    hide Step, Current;
  }

  lemma CanFail(s: State, i: nat)
    requires Running(s, i) && i < |s.op.value.plan|
    ensures var e, t := s.op.value.plan[i], WithClusterPhase(s, ClusterFailed);
            && Step(s, LoseEntry(i), t)
            && (e.slot.node in s.members && e.phase.Failed? ==> Step(s, FailEntry(i), t))
            && (e.slot.node in s.members && e.phase.Applying? && !Finished(s, e.slot.node) ==> Step(s, TimeOutEntry(i), t))
  {
    hide Current;
  }

  class Controller {
    /** What is stored; `world.flight` is what the reconcile in progress still has to write. */
    var world: State
    /** How many more writes succeed. */
    var budget: nat
    ghost var states: seq<State>
    ghost var actions: seq<Action>

    ghost predicate Valid()
      reads this
    {
      IsRun(states, actions) && states[|actions|] == world && ShapeInv(world)
    }

    constructor (s: State, writes: nat)
      requires ShapeInv(s)
      ensures Valid() && world == s && budget == writes && states == [s] && actions == []
    {
      world, budget, states, actions := s, writes, [s], [];
    }

    /** A write takes effect, or the reconcile ends here. */
    method Write(ghost a: Action, t: State) returns (ok: bool)
      requires Valid() && Step(world, a, t)
      modifies this
      ensures Valid() && ok == (old(budget) > 0)
      ensures ok ==> world == t && budget == old(budget) - 1 && states == old(states) + [t] && actions == old(actions) + [a]
      ensures !ok ==> world == old(world) && budget == 0 && states == old(states) && actions == old(actions)
    {
      ok := budget > 0;
      if ok {
        StepKeepsShape(world, a, t);
        hide Step, ShapeInv;
        states, actions := states + [t], actions + [a];
        world, budget := t, budget - 1;
      }
    }

    /** Writes that change nothing the protocol looks at. */
    method Spend(writes: nat) returns (ok: bool)
      requires Valid()
      modifies this
      ensures Valid() && world == old(world) && states == old(states) && actions == old(actions)
      ensures ok == (old(budget) >= writes) && budget == if ok then old(budget) - writes else 0
    {
      ok := budget >= writes;
      budget := if ok then budget - writes else 0;
    }

    /** The operator restarts: what was still to be written is forgotten. */
    method Restart(writes: nat)
      requires Valid()
      modifies this
      ensures Valid() && world == old(world).(flight := NoFlight) && budget == writes
      ensures actions == old(actions) + [Crash]
    {
      budget := 1;
      var _ := Write(Crash, world.(flight := NoFlight));
      budget := writes;
    }

    /** The index of the first entry that is not Done. */
    method FindOpen(plan: seq<Entry>) returns (i: nat)
      ensures i == FirstOpen(plan)
    {
      i := 0;
      while i < |plan| && plan[i].phase.Done?
        invariant i <= |plan| && forall j :: 0 <= j < i ==> plan[j].phase.Done?
      {
        i := i + 1;
      }
      CurrentIsFirstOpen(plan, i);
    }

    /** Start the current entry: first the node is written, then the cluster. */
    method Start(i: nat)
      requires Valid() && AtEntry(world, i, Pending)
      modifies this
      ensures Valid() && actions == old(actions) + Limit([StartEntry(i), ConfirmStart], old(budget))
      ensures var e := old(world).op.value.plan[i];
              && (old(budget) > 0 ==>
                    && e.slot.node in world.members
                    && NodeOf(world, e.slot.node) == NodeOf(old(world), e.slot.node).(op := Some(NodeOp(e.slot.job, Pending, old(world).next))))
              && (old(budget) > 1 ==>
                    world.op == Some(old(world).op.value.(plan := old(world).op.value.plan[i := Entry(e.slot, Applying, old(world).next)])))
              && (old(budget) <= 1 ==> world.op == old(world).op)
    {
      CanStart(world, i);
      hide Step, ShapeInv, Current;
      var ok := Write(StartEntry(i), Started(world, i));
      if ok { ok := Write(ConfirmStart, Confirmed(world)); }
    }

    /** The node of the current entry is done or has failed: take that over, and give up if it has failed. */
    method Observe(i: nat)
      requires Valid() && AtEntry(world, i, Applying) && Finished(world, world.op.value.plan[i].slot.node)
      modifies this
      ensures Valid()
      ensures var failed := PhaseOf(NodeOf(old(world), old(world).op.value.plan[i].slot.node)).Failed?;
              actions == old(actions) + Limit([ObserveEntry(i)] + if failed then [FailEntry(i)] else [], old(budget))
    {
      CanObserve(world, i);
      hide Step, ShapeInv, Current;
      var phase := PhaseOf(NodeOf(world, world.op.value.plan[i].slot.node));
      var ok := Write(ObserveEntry(i), WithEntry(world, i, world.op.value.plan[i].(phase := phase)));
      if ok && phase.Failed? { ok := Write(FailEntry(i), WithClusterPhase(world, ClusterFailed)); }
    }

    /** The turn of the runner at entry `i`, its message being up to date. */
    method RunEntry(i: nat, o: Outside)
      requires Valid() && Running(world, i) && i < |world.op.value.plan| && i == FirstOpen(world.op.value.plan)
      modifies this
      ensures Valid() && actions == old(actions) + Limit(RunnerScript(old(world), o), old(budget))
    {
      var e := world.op.value.plan[i];
      var failed := WithClusterPhase(world, ClusterFailed);
      CanFail(world, i);
      hide Step, ShapeInv, Current;
      if o.unreadable || e.slot.node !in world.members {
        var _ := Write(LoseEntry(i), failed);
      } else if e.phase.Pending? {
        Start(i);
      } else if e.phase.Applying? {
        var n := NodeOf(world, e.slot.node);
        if n.op.Some? && Complete(PhaseOf(n)) {
          Observe(i);
        } else if o.timedOut {
          var _ := Write(TimeOutEntry(i), failed);
        }
      } else if e.phase.Failed? {
        var _ := Write(FailEntry(i), failed);
      }
    }

    method RunSubOperations(o: Outside)
      requires Valid() && world.flight.NoFlight? && world.op.Some? && world.op.value.phase.InProgress?
      modifies this
      ensures Valid() && actions == old(actions) + Limit(RunnerScript(old(world), o), RunnerBudget(old(world), o, old(budget)))
    {
      var plan := world.op.value.plan;
      var i := FindOpen(plan);
      if i == |plan| {
        assert Step(world, FinishPlan, WithClusterPhase(world, Postflight));
        hide Step, ShapeInv, Current;
        var _ := Write(FinishPlan, WithClusterPhase(world, Postflight));
        return;
      }
      hide Step, ShapeInv, Current;
      if o.newMessage {
        var ok := Spend(1);
        if !ok { return; }
      }
      RunEntry(i, o);
    }

    /** The Pending phase of every cluster operation. */
    method MakePlans(answers: Answers, ghost cps: seq<Name>, ghost ws: seq<Name>)
      requires Valid() && AnswersFor(world, answers) && Lists(cps, world, Controlplane) && Lists(ws, world, Worker)
      requires world.flight.NoFlight? && world.op.Some? && world.op.value.phase.ClusterPending?
      modifies this
      ensures Valid() && actions == old(actions) + Limit([Plan(cps, ws)], old(budget))
    {
      var t, c, w := MakePlan(world, answers.all, answers.cps, answers.ws);
      PlansAgree(world, cps, ws, c, w, t);
      hide Step, ShapeInv;
      var _ := Write(Plan(cps, ws), t);
    }

    /** The Postflight phase; a Kubernetes upgrade has manifests to apply before it is done. */
    method Postflights(o: Outside, cps: seq<Name>)
      requires Valid() && EligibleList(world, cps, Some(Controlplane))
      requires world.flight.NoFlight? && world.op.Some? && world.op.value.phase.Postflight?
      modifies this
      ensures Valid()
      ensures actions == old(actions) + Limit(
                if old(world).op.value.kind.KubernetesUpgrade? && HasControlplane(old(world)) && !o.manifests then [] else [FinishOp],
                old(budget))
      ensures world.op.Some? && world.op.value.kind == old(world).op.value.kind
      ensures var upgrade := world.op.value.kind.KubernetesUpgrade?;
              && (world.op.value.phase.ClusterDone? <==> old(budget) > 0 && (upgrade ==> cps != [] && o.manifests))
              && (world.op.value.phase.ClusterFailed? <==> old(budget) > 0 && upgrade && cps == [])
    {
      ControlplanesListed(world, cps);
      hide ShapeInv, EligibleList;
      var op := world.op.value;
      var t := WithClusterPhase(world, ClusterDone);
      if op.kind.KubernetesUpgrade? {
        if |cps| < 1 {
          t := world.(op := Some(op.(phase := ClusterFailed, plan := [])));
        } else if !o.manifests {
          return;
        } else {
          t := world.(op := Some(op.(phase := ClusterDone, plan := [])));
        }
      }
      assert Step(world, FinishOp, t);
      var _ := Write(FinishOp, t);
    }

    /** Copy the request to the status, then clear it. */
    method TakeIn()
      requires Valid() && world.flight.NoFlight? && world.request.Some?
      modifies this
      ensures Valid() && actions == old(actions) + Limit([Intake, ClearRequest], old(budget))
      ensures old(budget) > 0 ==> world.op == Some(ClusterOp(old(world).request.value, ClusterPending, [], []))
      ensures world.request == if old(budget) > 1 then None else old(world).request
    {
      var t := world.(op := NewOp(world.request.value), flight := Clearing);
      assert Step(world, Intake, t);
      hide ShapeInv;
      var ok := Write(Intake, t);
      if ok {
        var u := world.(request := None, flight := NoFlight);
        assert Step(world, ClearRequest, u);
        ok := Write(ClearRequest, u);
      }
    }

    /** A whole reconcile writes exactly its script, as far as the operator gets. */
    method Reconcile(o: Outside, answers: Answers, ghost cps: seq<Name>, ghost ws: seq<Name>)
      requires Valid() && world.flight.NoFlight? && AnswersFor(world, answers)
      requires Lists(cps, world, Controlplane) && Lists(ws, world, Worker)
      modifies this
      ensures Valid() && actions == old(actions) + Limit(Script(old(world), o, cps, ws), ScriptBudget(old(world), o, old(budget)))
    {
      hide Step, ShapeInv, Lists, RunnerScript, FirstOpen, CanAutoBootstrap, CanAutoWindow;
      var ok := Spend(o.housekeeping);
      if !ok { return; }
      var triggered := Trigger(o, answers, cps, ws);
      if triggered { return; }
      if world.request.Some? {
        TakeIn();
        return;
      }
      if world.op.None? || world.op.value.phase.ClusterDone? || world.op.value.phase.ClusterFailed? { return; }
      match world.op.value.phase {
        case ClusterPending => MakePlans(answers, cps, ws);
        case InProgress => RunSubOperations(o);
        case Postflight =>
          var controlplanes := ListEligible(world, answers.cps, Some(Controlplane));
          Postflights(o, controlplanes);
      }
    }

    /** The operator comes back, wherever it was stopped, and reconciles. */
    method Resume(o: Outside, answers: Answers, ghost cps: seq<Name>, ghost ws: seq<Name>, writes: nat)
      requires Valid() && AnswersFor(world, answers) && Lists(cps, world, Controlplane) && Lists(ws, world, Worker)
      modifies this
      ensures Valid()
      ensures var s := old(world).(flight := NoFlight);
              actions == old(actions) + [Crash] + Limit(Script(s, o, cps, ws), ScriptBudget(s, o, writes))
    {
      SameAnswers(world, world.(flight := NoFlight), answers, cps, ws);
      hide Step, ShapeInv, Lists, AnswersFor, Script, ScriptBudget;
      Restart(writes);
      Reconcile(o, answers, cps, ws);
    }

    /** The automatic bootstrap and the maintenance window. */
    method Trigger(o: Outside, answers: Answers, ghost cps: seq<Name>, ghost ws: seq<Name>) returns (triggered: bool)
      requires Valid() && world.flight.NoFlight? && AnswersFor(world, answers)
      requires Lists(cps, world, Controlplane) && Lists(ws, world, Worker)
      modifies this
      ensures Valid()
      ensures triggered <==> (o.autoBootstrap && CanAutoBootstrap(old(world))) || (o.inWindow && CanAutoWindow(old(world)))
      ensures !triggered ==> world == old(world) && budget == old(budget) && actions == old(actions)
      ensures triggered ==> actions == old(actions) + Limit(Script(old(world), o, cps, ws), old(budget))
      ensures triggered && !(o.autoBootstrap && CanAutoBootstrap(old(world))) && old(budget) > 0 ==> Opened(old(world), world.op)
    {
      triggered := false;
      if world.request.Some? || !Rested(world) { return; }
      var controlplanes := ListEligible(world, answers.cps, Some(Controlplane));
      var ready := ReadyForBootstrap(world, controlplanes);
      hide Step, ShapeInv, Lists, RunnerScript, CanAutoBootstrap, CanAutoWindow;
      if o.autoBootstrap && ready {
        AutoBootstraps(answers, cps, ws);
        return true;
      }
      if o.inWindow { triggered := OpenWindow(answers); }
    }

    /** In a maintenance window: configuration first, then Kubernetes. */
    method OpenWindow(answers: Answers) returns (triggered: bool)
      requires Valid() && world.flight.NoFlight? && AnswersFor(world, answers) && world.request.None? && Rested(world)
      modifies this
      ensures Valid() && triggered == CanAutoWindow(old(world))
      ensures !triggered ==> world == old(world) && budget == old(budget) && actions == old(actions)
      ensures triggered ==> actions == old(actions) + Limit([AutoWindow], old(budget))
      ensures triggered && old(budget) > 0 ==> Opened(old(world), world.op)
    {
      var nodes := ListEligible(world, answers.all, None);
      var apply := AnyOutOfSync(world, nodes);
      var upgrade := AnyNeedsKubernetes(world, nodes);
      triggered := apply || upgrade;
      if triggered {
        var t := world.(op := NewOp(if apply then RollingApply else KubernetesUpgrade));
        assert Step(world, AutoWindow, t);
        hide Step, ShapeInv;
        var _ := Write(AutoWindow, t);
      }
    }

    /** The automatic bootstrap is planned in the same reconcile that puts it in place. */
    method AutoBootstraps(answers: Answers, ghost cps: seq<Name>, ghost ws: seq<Name>)
      requires Valid() && AnswersFor(world, answers) && CanAutoBootstrap(world)
      requires Lists(cps, world, Controlplane) && Lists(ws, world, Worker)
      modifies this
      ensures Valid() && actions == old(actions) + Limit([AutoBootstrap, Plan(cps, ws)], old(budget))
    {
      var t := world.(op := NewOp(ClusterBootstrap));
      assert Step(world, AutoBootstrap, t);
      SameAnswers(world, t, answers, cps, ws);
      hide ShapeInv, Step, Lists, AnswersFor;
      assert t.flight.NoFlight?;
      var ok := Write(AutoBootstrap, t);
      if ok { MakePlans(answers, cps, ws); }
    }
  }

  /** What the API server answers to the three list requests, in whatever order. */
  datatype Answers = Answers(all: seq<Name>, cps: seq<Name>, ws: seq<Name>)

  predicate AnswersFor(s: State, a: Answers) {
    Answer(s, a.all, None) && Answer(s, a.cps, Some(Controlplane)) && Answer(s, a.ws, Some(Worker))
  }

  lemma SameAnswers(s: State, t: State, a: Answers, cps: seq<Name>, ws: seq<Name>)
    requires AnswersFor(s, a) && Lists(cps, s, Controlplane) && Lists(ws, s, Worker) && t.members == s.members
    ensures AnswersFor(t, a) && Lists(cps, t, Controlplane) && Lists(ws, t, Worker)
  {
    hide Ascending;
    assert forall x, r :: Wanted(t, x, r) == Wanted(s, x, r);
  }

  lemma PlansAgree(s: State, cps: seq<Name>, ws: seq<Name>, c: seq<Name>, w: seq<Name>, t: State)
    requires Lists(cps, s, Controlplane) && Lists(ws, s, Worker) && Step(s, Plan(c, w), t)
    ensures Step(s, Plan(cps, ws), t)
  {
    RoleListIsPlanList(s, cps, Controlplane);
    RoleListIsPlanList(s, c, Controlplane);
    RoleListIsPlanList(s, ws, Worker);
    RoleListIsPlanList(s, w, Worker);
    hide EligibleList, Refused, Slots;
    EligibleListIsUnique(s, cps, c, Some(Controlplane));
    EligibleListIsUnique(s, ws, w, Some(Worker));
  }

  lemma ControlplanesListed(s: State, cps: seq<Name>)
    requires EligibleList(s, cps, Some(Controlplane))
    ensures HasControlplane(s) <==> cps != []
  {
    if cps != [] { assert cps[0] in cps; }
    if HasControlplane(s) {
      var x :| x in s.members && Eligible(NodeOf(s, x)) && NodeOf(s, x).role.Controlplane?;
      assert Wanted(s, x, Some(Controlplane));
    }
  }
}
