/**
 * With a fixed set of provisioned nodes, an upgrade that finishes its plan has brought every node to
 * the target, and the automation comes to rest as soon as every node has refreshed its status.
 */
module Convergence {
  import opened Types
  import opened NodeSteps
  import opened Protocol
  import opened PlanShape
  import opened OwnInstance
  import opened VersionSkew
  import opened NodeCycles
  import opened Chains

  predicate AnyName(x: Name) { true }

  ghost function Everyone(): iset<Name> { iset x: Name | AnyName(x) }

  ghost predicate Here(s: State, x: Name) { In(Everyone(), s, x) }

  ghost predicate SameNodes(s: State, t: State) { forall x :: Here(s, x) <==> Here(t, x) }

  ghost predicate Fixed(s: State, a: Action, t: State) { Careful(s, a) && SameNodes(s, t) }

  lemma FixedIsOrderly(s: State, a: Action, t: State)
    requires Fixed(s, a, t)
    ensures Orderly(Everyone(), s, a, t)
  {
    hide Careful, Fits, In;
    forall x ensures !Joins(Everyone(), s, t, x) { assert Here(s, x) <==> Here(t, x); }
  }

  ghost predicate AllUpToDate(s: State) { forall x :: Here(s, x) ==> UpToDate(NodeOf(s, x), s.target) }

  // ---------------------------------------------------------------- what a plan has reached

  /** Every component of every node is planned. */
  ghost predicate Covered(s: State, planned: seq<Slot>) {
    forall x, c :: Here(s, x) && ComponentFits(c, NodeOf(s, x).role) ==> Target(x, c) in planned
  }

  /** The component this slot is for is at the target. */
  ghost predicate Reached(s: State, slot: Slot) {
    slot.job.kind.ComponentUpgrade? && Here(s, slot.node) ==>
      !slot.job.component.NoComponent? && NodeOf(s, slot.node).versions.Get(slot.job.component) == s.target
  }

  ghost predicate DoneReached(s: State, plan: seq<Entry>) {
    forall j :: 0 <= j < |plan| && plan[j].phase.Done? ==> Reached(s, plan[j].slot)
  }

  predicate Going(o: Option<ClusterOp>) { o.Some? && (o.value.phase.InProgress? || o.value.phase.Postflight?) }

  ghost predicate CoverInv(s: State) {
    Going(s.op) ==>
      DoneReached(s, s.op.value.plan) && (s.op.value.kind.KubernetesUpgrade? ==> Covered(s, s.op.value.planned))
  }

  ghost predicate FixedInv(s: State) { VersionInv(Everyone(), s) && CoverInv(s) }

  lemma ReachedStays(s: State, a: Action, t: State, slot: Slot)
    requires NodesInv(Everyone(), s) && Step(s, a, t) && Fixed(s, a, t) && Reached(s, slot)
    ensures Reached(t, slot)
  {
    StepCounters(s, a, t);
    hide Step, Careful, NodeVersions, NoSkew, SomeLate, AllServersNew, Launches;
    if slot.job.kind.ComponentUpgrade? && Here(t, slot.node) {
      assert Here(s, slot.node);
      NodeStep(s, a, t, slot.node);
    }
  }

  lemma RoleStays(s: State, a: Action, t: State, x: Name)
    requires Step(s, a, t) && x in s.members && x in t.members
    ensures NodeOf(t, x).role == NodeOf(s, x).role
  {
    hide Step, NodeMove, AtEntry;
    StepFate(s, a, t, x);
    if a.NodePass? && t.members[x] != s.members[x] {
      PassFacts(NodeOf(s, x), NodeOf(t, x), a.pass, OthersActive(s, x), s.target);
    }
  }

  lemma CoverStays(s: State, a: Action, t: State, planned: seq<Slot>)
    requires Step(s, a, t) && SameNodes(s, t) && Covered(s, planned)
    ensures Covered(t, planned)
  {
    hide Step, ComponentFits;
    forall x, c | Here(t, x) && ComponentFits(c, NodeOf(t, x).role) ensures Target(x, c) in planned {
      assert Here(s, x);
      RoleStays(s, a, t, x);
    }
  }

  lemma PlanStaysReached(s: State, a: Action, t: State, plan: seq<Entry>)
    requires NodesInv(Everyone(), s) && Step(s, a, t) && Fixed(s, a, t) && DoneReached(s, plan)
    ensures DoneReached(t, plan)
  {
    hide Step, Reached, NodesInv, Fixed;
    forall j | 0 <= j < |plan| && plan[j].phase.Done? ensures Reached(t, plan[j].slot) {
      ReachedStays(s, a, t, plan[j].slot);
    }
  }

  /** The four stages leave no component of no node out. */
  lemma UpgradePlanCovers(s: State, cps: seq<Name>, ws: seq<Name>)
    requires Lists(cps, s, Controlplane) && Lists(ws, s, Worker)
    ensures Covered(s, UpgradeSlots(cps, ws))
  {
    hide Ascending;
    var slots := UpgradeSlots(cps, ws);
    forall x, c | Here(s, x) && ComponentFits(c, NodeOf(s, x).role) ensures Target(x, c) in slots {
      if c.Kubelet? {
        assert x in cps + ws;
        var i :| 0 <= i < |cps + ws| && (cps + ws)[i] == x;
        assert slots[3 * |cps| + i] == Target(x, c);
      } else {
        assert x in cps;
        var i :| 0 <= i < |cps| && cps[i] == x;
        var offset := if c.APIServer? then 0 else if c.ControllerManager? then |cps| else 2 * |cps|;
        assert slots[offset + i] == Target(x, c);
      }
    }
  }

  lemma PlanStepCovers(s: State, a: Action, t: State)
    requires Step(s, a, t) && a.Plan?
    ensures CoverInv(t)
  {
    if t.op.value.phase.InProgress? && s.op.value.kind.KubernetesUpgrade? {
      UpgradePlanCovers(s, a.cps, a.ws);
      hide Lists, Refused, UpgradeSlots;
      SameCover(s, t, t.op.value.planned);
    }
  }

  lemma SameCover(s: State, t: State, planned: seq<Slot>)
    requires t.members == s.members && Covered(s, planned)
    ensures Covered(t, planned)
  {
    assert forall x :: Here(t, x) <==> Here(s, x);
  }

  /** An entry becomes Done only with its component at the target. */
  lemma ObservedIsReached(s: State, i: nat)
    requires VersionInv(Everyone(), s) && AtEntry(s, i, Applying)
    requires OpAt(s, s.op.value.plan[i].slot.node).Some? && OpAt(s, s.op.value.plan[i].slot.node).value.phase.Done?
    ensures Reached(s, s.op.value.plan[i].slot)
  {
    hide Ledger, NodeHistory.AcceptHistory, Current, NoSkew, SomeLate, AllServersNew, Guarded;
    var e := s.op.value.plan[i];
    assert Runs(s, e.slot, e.tag);
    if Here(s, e.slot.node) { assert Bumped(NodeOf(s, e.slot.node), s.target); }
  }

  lemma SameReached(s: State, t: State, slot: Slot)
    requires t.members == s.members && t.target == s.target && Reached(s, slot)
    ensures Reached(t, slot)
  {
  }

  lemma ObserveCovers(s: State, a: Action, t: State)
    requires FixedInv(s) && Step(s, a, t) && a.ObserveEntry?
    ensures CoverInv(t)
  {
    ObserveFacts(s, a, t);
    if t.op.value.plan[a.i].phase.Done? { ObservedIsReached(s, a.i); }
    hide Step, Current, VersionInv, Reached, Covered, AtEntry;
    var plan, next := s.op.value.plan, t.op.value.plan;
    forall j | 0 <= j < |next| && next[j].phase.Done? ensures Reached(t, next[j].slot) {
      SameReached(s, t, plan[j].slot);
    }
    if s.op.value.kind.KubernetesUpgrade? { SameCover(s, t, s.op.value.planned); }
  }

  /** What the cluster controller does to an operation under way, planning and observing aside. */
  lemma RunnerMoves(s: State, a: Action, t: State)
    requires Owed(s.flight, s.op) && Step(s, a, t) && !a.Plan? && !a.ObserveEntry? && Going(t.op)
    ensures Going(s.op) && t.op.value.planned == s.op.value.planned && t.op.value.kind == s.op.value.kind
    ensures forall j :: 0 <= j < |t.op.value.plan| && t.op.value.plan[j].phase.Done? ==>
              j < |s.op.value.plan| && s.op.value.plan[j] == t.op.value.plan[j]
  {
    hide Current, NodeMove;
    if Elsewhere(a) {
      hide Step;
      ElsewhereKeepsPlan(s, a, t);
    }
  }

  lemma StepKeepsCover(s: State, a: Action, t: State)
    requires FixedInv(s) && Step(s, a, t) && Fixed(s, a, t)
    ensures CoverInv(t)
  {
    if a.Plan? {
      PlanStepCovers(s, a, t);
    } else if a.ObserveEntry? {
      ObserveCovers(s, a, t);
    } else if Going(t.op) {
      RunnerMoves(s, a, t);
      PlanStaysReached(s, a, t, s.op.value.plan);
      if s.op.value.kind.KubernetesUpgrade? { CoverStays(s, a, t, s.op.value.planned); }
      hide Step, Fixed, VersionInv, Reached, Covered;
    }
  }

  /** All entries are Done and every component of every node is planned, so all versions are the target. */
  lemma FinishedPlanIsUpToDate(s: State)
    requires FixedInv(s) && s.op.Some? && s.op.value.kind.KubernetesUpgrade? && s.op.value.phase.Postflight?
    ensures AllUpToDate(s)
    ensures forall x :: Here(s, x) ==>
              && NodeOf(s, x).versions.kubelet == s.target
              && (NodeOf(s, x).role.Controlplane? ==>
                    var v := NodeOf(s, x).versions;
                    v.apiserver == s.target && v.controllerManager == s.target && v.scheduler == s.target)
  {
    hide NodesInv, Ledger, Owns, NodeHistory.AcceptHistory, Guarded;
    var plan, planned := s.op.value.plan, s.op.value.planned;
    forall x, c | Here(s, x) && ComponentFits(c, NodeOf(s, x).role)
      ensures NodeOf(s, x).versions.Get(c) == s.target
    {
      assert Target(x, c) in planned;
      var j :| 0 <= j < |planned| && planned[j] == Target(x, c);
      assert plan[j].slot == planned[j] && Reached(s, plan[j].slot);
    }
    forall x | Here(s, x) ensures UpToDate(NodeOf(s, x), s.target) {
      var n := NodeOf(s, x);
      assert n.versions.Get(Kubelet) == s.target;
      if n.role.Controlplane? {
        assert n.versions.Get(APIServer) == s.target && n.versions.Get(ControllerManager) == s.target &&
               n.versions.Get(Scheduler) == s.target;
      }
    }
  }

  // ---------------------------------------------------------------- what stays

  /** What a pass on an up-to-date node does to KubernetesInSync: it never turns False. */
  lemma PassKeepsFresh(n: Node, m: Node, pass: Pass, busy: bool, target: nat)
    requires NodeMove(n, m, pass, busy, target) && UpToDate(n, target)
    ensures m.k8sInSync == n.k8sInSync || m.k8sInSync != No
  {
    hide ApplyMove, UpgradeMove, ComponentMove, PowerMove, BootstrapMove;
    match pass
    case Upkeep =>
    case Start(seen, d) => if !busy { HandlerKeepsFresh(seen, m, d, busy, target); }
    case Run(d) => if !busy { HandlerKeepsFresh(n, m, d, busy, target); }
  }

  lemma HandlerKeepsFresh(n: Node, m: Node, d: Deed, busy: bool, target: nat)
    requires n.op.Some? && HandlerMove(n, m, d, busy, target)
    ensures m.k8sInSync == n.k8sInSync || m.k8sInSync == Unset
  {
  }

  lemma StepKeepsFresh(s: State, a: Action, t: State, x: Name)
    requires Step(s, a, t) && x in s.members && x in t.members && UpToDate(NodeOf(s, x), s.target)
    ensures NodeOf(t, x).k8sInSync == NodeOf(s, x).k8sInSync || NodeOf(t, x).k8sInSync != No
  {
    hide Step, NodeMove, AtEntry;
    StepFate(s, a, t, x);
    if a.NodePass? && t.members[x] != s.members[x] {
      PassKeepsFresh(NodeOf(s, x), NodeOf(t, x), a.pass, OthersActive(s, x), s.target);
    }
  }

  lemma OneStaysUpToDate(s: State, a: Action, t: State, x: Name)
    requires NodesInv(Everyone(), s) && Step(s, a, t) && Fixed(s, a, t) && Here(t, x) && AllUpToDate(s)
    ensures Here(s, x) && UpToDate(NodeOf(t, x), t.target)
  {
    StepCounters(s, a, t);
    hide Step, Careful, NodeVersions, NoSkew, SomeLate, AllServersNew, Launches;
    assert Here(s, x);
    NodeStep(s, a, t, x);
  }

  ghost predicate FixedRun(states: seq<State>, actions: seq<Action>) {
    && IsRun(states, actions) && Sound(Everyone(), states[0])
    && forall i :: 0 <= i < |actions| ==> Fixed(states[i], actions[i], states[i + 1])
  }

  lemma {:induction false} FixedOverRuns(states: seq<State>, actions: seq<Action>, k: nat)
    requires FixedRun(states, actions) && k < |states|
    ensures FixedInv(states[k])
  {
    hide Step, Fixed, NodeVersions, NoSkew, Ledger, NodeHistory.AcceptHistory;
    if k == 0 {
      VersionsOverRuns(Everyone(), [states[0]], [], 0);
    } else {
      hide FixedInv, Sound;
      FixedOverRuns(states, actions, k - 1);
      var s, a, t := states[k - 1], actions[k - 1], states[k];
      assert Fixed(s, a, t);
      FixedStep(s, a, t);
    }
  }

  lemma FixedStep(s: State, a: Action, t: State)
    requires FixedInv(s) && Step(s, a, t) && Fixed(s, a, t)
    ensures FixedInv(t)
  {
    FixedIsOrderly(s, a, t);
    StepKeepsCover(s, a, t);
    hide Step, Fixed, VersionInv, CoverInv;
    StepKeepsVersions(Everyone(), s, a, t);
  }

  /** An upgrade has finished its plan in state `i`. */
  predicate Upgraded(s: State) { s.op.Some? && s.op.value.kind.KubernetesUpgrade? && s.op.value.phase.Postflight? }

  /** From the end of an upgrade on, every version of every node is the target. */
  lemma {:induction false} StaysUpToDate(states: seq<State>, actions: seq<Action>, i: nat, k: nat)
    requires FixedRun(states, actions) && i <= k < |states| && Upgraded(states[i])
    ensures AllUpToDate(states[k])
  {
    hide Step, Fixed, FixedInv, Sound;
    if k == i {
      FixedOverRuns(states, actions, i);
      FinishedPlanIsUpToDate(states[i]);
    } else {
      StaysUpToDate(states, actions, i, k - 1);
      var s, a, t := states[k - 1], actions[k - 1], states[k];
      NodesInvOverRuns(states, actions, k - 1);
      assert Fixed(s, a, t);
      hide NodesInv, Here;
      forall x | Here(t, x) ensures x in t.members && UpToDate(NodeOf(t, x), t.target) {
        HereInMembers(t, x);
        OneStaysUpToDate(s, a, t, x);
      }
    }
  }

  lemma HereInMembers(s: State, x: Name)
    requires Here(s, x)
    ensures x in s.members
  {
  }

  lemma NodesInvOverRuns(states: seq<State>, actions: seq<Action>, k: nat)
    requires FixedRun(states, actions) && k < |states|
    ensures NodesInv(Everyone(), states[k])
  {
    hide Step, Fixed, Sound;
    FixedOverRuns(states, actions, k);
  }

  /** A node whose KubernetesInSync was refreshed once after the upgrade never reads False again. */
  lemma {:induction false} StaysFresh(states: seq<State>, actions: seq<Action>, i: nat, j: nat, k: nat, x: Name)
    requires FixedRun(states, actions) && i <= j <= k < |states| && Upgraded(states[i])
    requires Here(states[j], x) && Here(states[k], x) && NodeOf(states[j], x).k8sInSync != No
    ensures NodeOf(states[k], x).k8sInSync != No
  {
    hide Step, Careful, Sound;
    if j < k {
      StaysUpToDate(states, actions, i, k - 1);
      assert Fixed(states[k - 1], actions[k - 1], states[k]);
      assert Here(states[k - 1], x);
      StepKeepsFresh(states[k - 1], actions[k - 1], states[k], x);
      StaysFresh(states, actions, i, j, k - 1, x);
    }
  }

  // ---------------------------------------------------------------- does the window start another upgrade

  /** Node `x` has shown a KubernetesInSync other than False since state `i`. */
  ghost predicate Refreshed(states: seq<State>, i: nat, k: nat, x: Name)
    requires k < |states|
  {
    exists j :: i <= j <= k && Here(states[j], x) && NodeOf(states[j], x).k8sInSync != No
  }

  ghost predicate AllRefreshed(states: seq<State>, i: nat, k: nat)
    requires k < |states|
  {
    forall x :: Here(states[k], x) ==> Refreshed(states, i, k, x)
  }

  /** The window finds the cluster at rest, and no configuration to apply. */
  ghost predicate NothingToApply(s: State) { s.flight.NoFlight? && s.request.None? && Rested(s) && !SomeOutOfSync(s) }

  lemma WindowUpgradesIff(s: State)
    requires NothingToApply(s)
    ensures Step(s, AutoWindow, s.(op := NewOp(KubernetesUpgrade))) <==> exists x :: Here(s, x) && NodeOf(s, x).k8sInSync == No
  {
    var t := s.(op := NewOp(KubernetesUpgrade));
    if x :| Here(s, x) && NodeOf(s, x).k8sInSync == No { assert SomeNeedsKubernetes(s); }
    if SomeNeedsKubernetes(s) {
      var x :| x in s.members && Eligible(NodeOf(s, x)) && NodeOf(s, x).k8sInSync == No;
      assert Here(s, x);
    }
  }

  /**
   * After a Kubernetes upgrade has finished its plan, a maintenance window starts another one if and
   * only if some node has not refreshed its status since.
   */
  lemma RepeatedUpgradeIff(states: seq<State>, actions: seq<Action>, i: nat, k: nat)
    requires FixedRun(states, actions) && i <= k < |states| && Upgraded(states[i]) && NothingToApply(states[k])
    ensures Step(states[k], AutoWindow, states[k].(op := NewOp(KubernetesUpgrade))) <==> !AllRefreshed(states, i, k)
  {
    WindowUpgradesIff(states[k]);
    hide Step, Fixed, Sound;
    if AllRefreshed(states, i, k) {
      forall x | Here(states[k], x) ensures NodeOf(states[k], x).k8sInSync != No {
        assert Refreshed(states, i, k, x);
        var j :| i <= j <= k && Here(states[j], x) && NodeOf(states[j], x).k8sInSync != No;
        StaysFresh(states, actions, i, j, k, x);
      }
    } else {
      var x :| Here(states[k], x) && !Refreshed(states, i, k, x);
      assert NodeOf(states[k], x).k8sInSync == No;
    }
  }

  /** In particular none once every node has refreshed its status: the automation comes to rest. */
  lemma NoFurtherUpgrade(states: seq<State>, actions: seq<Action>, i: nat, k: nat)
    requires FixedRun(states, actions) && i <= k < |actions| && Upgraded(states[i]) && AllRefreshed(states, i, k)
    requires actions[k] == AutoWindow && states[k + 1].op.Some?
    ensures !states[k + 1].op.value.kind.KubernetesUpgrade?
  {
    if states[k + 1].op.value.kind.KubernetesUpgrade? {
      assert AutoWindowStep(states[k], states[k + 1]);
      assert states[k + 1] == states[k].(op := NewOp(KubernetesUpgrade));
      hide Fixed, Sound, AllRefreshed;
      RepeatedUpgradeIff(states, actions, i, k);
    }
  }

  // ---------------------------------------------------------------- an upgrade that is started twice

  /** Node `x` runs a component upgrade that is past Pending, and shows KubernetesInSync False. */
  predicate Stale(s: State, x: Name) {
    && x in s.members && NodeOf(s, x).k8sInSync == No
    && Upgrades(NodeOf(s, x)) && !PhaseOf(NodeOf(s, x)).Pending?
  }

  lemma RunKeepsStale(n: Node, m: Node, pass: Pass, busy: bool, target: nat)
    requires NodeMove(n, m, pass, busy, target) && Upgrades(n) && !PhaseOf(n).Pending? && !pass.Upkeep?
    ensures Upgrades(m) && !PhaseOf(m).Pending? && m.k8sInSync == n.k8sInSync
  {
    PassFacts(n, m, pass, busy, target);
  }

  /**
   * The status is frozen while an operation runs, so the False a node recorded before its own upgrade
   * outlives that upgrade: until the next status pass it stays, whatever else happens.
   */
  lemma {:induction false} StaleUntilStatusPass(states: seq<State>, actions: seq<Action>, x: Name, id: nat, k: nat)
    requires IsRun(states, actions) && k < |states| && Keeps(states, x, id) && Stale(states[0], x) && id < states[0].next
    requires forall i :: 0 <= i < |actions| ==> actions[i] != NodePass(x, Upkeep)
    ensures Stale(states[k], x) && id < states[k].next
  {
    hide Step, NodeMove;
    if k > 0 {
      StaleUntilStatusPass(states, actions, x, id, k - 1);
      var s, a, t := states[k - 1], actions[k - 1], states[k];
      StepCounters(s, a, t);
      StepFate(s, a, t, x);
      if a.NodePass? && a.name == x && t.members[x] != s.members[x] {
        RunKeepsStale(NodeOf(s, x), NodeOf(t, x), a.pass, OthersActive(s, x), s.target);
      }
    }
  }

  /** A kubelet upgrade that is the last thing its node lacks. */
  predicate LacksOnlyKubelet(n: Node, target: nat) {
    && Late(n) && ComponentOf(n).Kubelet? && Eligible(n) && InSync(n)
    && n.versions.kubelet != target && UpToDate(n.(versions := n.versions.Set(Kubelet, target)), target)
  }

  lemma KubeletRecorded(n: Node, target: nat) returns (pass: Pass, m: Node)
    requires LacksOnlyKubelet(n, target)
    ensures NodeMove(n, m, pass, false, target) && m.op == Some(n.op.value.(phase := Applying)) && m.role == n.role
    ensures UpToDate(m, target) && m.k8sInSync == No && m.configInSync == Yes && Eligible(m)
  {
    var seen := n.(bootID := n.boot, ready := Yes, configInSync := Yes, k8sInSync := No);
    m := seen.(versions := n.versions.Set(Kubelet, target), op := Some(n.op.value.(phase := Applying)));
    pass := Start(seen, Nothing);
    assert ComponentMove(seen, m, Nothing, target);
  }

  lemma KubeletApplied(n: Node, target: nat) returns (m: Node)
    requires Upgrades(n) && ComponentOf(n).Kubelet? && PhaseOf(n).Applying? && Eligible(n)
    ensures NodeMove(n, m, Run(Accepted(false, true)), false, target)
    ensures m == n.(holds := Some(n.versions), op := Some(n.op.value.(phase := Verifying)))
  {
    m := n.(holds := Some(n.versions), op := Some(n.op.value.(phase := Verifying)));
  }

  lemma KubeletVerified(n: Node, target: nat) returns (m: Node)
    requires Upgrades(n) && ComponentOf(n).Kubelet? && PhaseOf(n).Verifying? && Eligible(n)
    ensures NodeMove(n, m, Run(Verified), false, target)
    ensures m == n.(cordoned := m.cordoned, op := Some(n.op.value.(phase := Done)))
  {
    m := n.(cordoned := n.cordoned && n.unschedulable == Yes, op := Some(n.op.value.(phase := Done)));
  }

  /** Three passes take it to Done, with the False of the first one still on record. */
  lemma KubeletUpgradePasses(n: Node, target: nat) returns (nodes: seq<Node>, passes: seq<Pass>)
    requires LacksOnlyKubelet(n, target)
    ensures Chain(nodes, passes, false, target) && |passes| == 3 && nodes[0] == n
    ensures UpgradeLeft(n, nodes[3], target)
  {
    var pass, n1 := KubeletRecorded(n, target);
    hide NodeMove;
    var n2 := KubeletApplied(n1, target);
    var n3 := KubeletVerified(n2, target);
    nodes, passes := [n, n1, n2, n3], [pass, Run(Accepted(false, true)), Run(Verified)];
  }

  /** What the upgrade leaves: every version at the target, and a KubernetesInSync that says otherwise. */
  predicate UpgradeLeft(n: Node, m: Node, target: nat) {
    && n.op.Some? && m.op == Some(n.op.value.(phase := Done)) && UpToDate(m, target) && m.k8sInSync == No
    && m.configInSync == Yes && Eligible(m) && m.role == n.role
  }

  /** The last kubelet of an upgrade is about to be upgraded; everything else is done. */
  ghost predicate LastKubelet(s: State, i: nat, x: Name) {
    && AtEntry(s, i, Applying) && i == |s.op.value.plan| - 1 && s.op.value.kind.KubernetesUpgrade? && s.request.None?
    && s.op.value.plan[i].slot.node == x && LacksOnlyKubelet(NodeOf(s, x), s.target) && !OthersActive(s, x)
    && (exists y :: InCp(Everyone(), s, y))
    && forall y :: Here(s, y) && y != x ==> UpToDate(NodeOf(s, y), s.target) && NodeOf(s, y).configInSync != No
  }

  /**
   * From there a run of seven steps, with no status pass in between, finishes the upgrade with every
   * version at the target, and starts it all over again.
   */
  lemma UpgradeStartsTwice(s: State, i: nat, x: Name) returns (states: seq<State>, actions: seq<Action>)
    requires LastKubelet(s, i, x)
    ensures IsRun(states, actions) && states[0] == s && |actions| == 7
    ensures Upgraded(states[5]) && AllUpToDate(states[6]) && states[6].op.Some? && states[6].op.value.phase.ClusterDone?
    ensures states[7].op == NewOp(KubernetesUpgrade)
  {
    var nodes, passes := KubeletUpgradePasses(NodeOf(s, x), s.target);
    var first, acts := ChainIsRun(s, x, nodes, passes);
    var more, moreActs := Aftermath(s, first[3], i, x);
    hide Step, LastKubelet, Chain, UpgradeLeft, AllUpToDate;
    RunsJoin(first, acts, more, moreActs);
    states, actions := first + more[1..], acts + moreActs;
  }

  /** What is left to do: take the end over, finish the plan and the operation, and look at the window. */
  lemma Aftermath(s: State, t: State, i: nat, x: Name) returns (states: seq<State>, actions: seq<Action>)
    requires LastKubelet(s, i, x) && x in t.members && t.members == s.members[x := t.members[x]]
    requires t == s.(members := t.members, doneAt := t.doneAt) && UpgradeLeft(NodeOf(s, x), NodeOf(t, x), s.target)
    ensures IsRun(states, actions) && |actions| == 4 && states[0] == t
    ensures Upgraded(states[2]) && AllUpToDate(states[3]) && states[3].op.Some? && states[3].op.value.phase.ClusterDone?
    ensures states[4].op == NewOp(KubernetesUpgrade)
  {
    var u, v := Winding(s, t, i, x);
    AllSetButOne(s, t, i, x);
    hide LastKubelet, UpgradeLeft, Step;
    var w := Ending(v, x);
    states := [t, u, v, w, w.(op := NewOp(KubernetesUpgrade))];
    actions := [ObserveEntry(i), FinishPlan, FinishOp, AutoWindow];
  }

  /** All nodes are up to date and in sync, but `x` does not say so. */
  ghost predicate AllSet(members: map<Name, Member>, target: nat, x: Name) {
    && (forall y :: y in members && Eligible(members[y].node) ==> UpToDate(members[y].node, target) && members[y].node.configInSync != No)
    && (exists y :: y in members && Eligible(members[y].node) && members[y].node.role.Controlplane?)
    && x in members && Eligible(members[x].node) && members[x].node.k8sInSync == No
  }

  lemma AllSetButOne(s: State, t: State, i: nat, x: Name)
    requires LastKubelet(s, i, x) && x in t.members && t.members == s.members[x := t.members[x]]
    requires UpgradeLeft(NodeOf(s, x), NodeOf(t, x), s.target)
    ensures AllSet(t.members, s.target, x)
  {
    hide AtEntry, LacksOnlyKubelet, UpToDate;
    forall y | y in t.members && Eligible(t.members[y].node)
      ensures UpToDate(t.members[y].node, s.target) && t.members[y].node.configInSync != No
    {
      if y != x { assert Here(s, y); }
    }
    var y :| InCp(Everyone(), s, y);
    assert y in t.members && Eligible(t.members[y].node) && t.members[y].node.role.Controlplane?;
  }

  lemma Winding(s: State, t: State, i: nat, x: Name) returns (u: State, v: State)
    requires AtEntry(s, i, Applying) && i == |s.op.value.plan| - 1 && s.op.value.plan[i].slot.node == x && x in t.members
    requires t == s.(members := t.members, doneAt := t.doneAt) && NodeOf(t, x).op.Some? && PhaseOf(NodeOf(t, x)).Done?
    ensures Step(t, ObserveEntry(i), u) && Step(u, FinishPlan, v)
    ensures v == t.(op := v.op) && v.op.Some? && v.op.value.phase.Postflight? && v.op.value.kind == s.op.value.kind && v.flight.NoFlight?
  {
    u := WithEntry(t, i, t.op.value.plan[i].(phase := Done));
    ObserveDone(t, i);
    v := WithClusterPhase(u, Postflight);
    FinishesPlan(u);
  }

  lemma FinishesPlan(s: State)
    requires s.flight.NoFlight? && s.op.Some? && s.op.value.phase.InProgress? && Current(s.op.value.plan, |s.op.value.plan|)
    ensures Step(s, FinishPlan, WithClusterPhase(s, Postflight))
  {
  }

  lemma Ending(v: State, x: Name) returns (w: State)
    requires Upgraded(v) && v.flight.NoFlight? && v.request.None? && AllSet(v.members, v.target, x)
    ensures Step(v, FinishOp, w) && Step(w, AutoWindow, w.(op := NewOp(KubernetesUpgrade)))
    ensures AllUpToDate(w) && w.op.Some? && w.op.value.phase.ClusterDone?
  {
    hide UpToDate;
    w := v.(op := Some(v.op.value.(phase := ClusterDone, plan := [])));
    assert FinishStep(v, w) by {
      var y :| y in v.members && Eligible(v.members[y].node) && v.members[y].node.role.Controlplane?;
      assert Eligible(NodeOf(v, y));
    }
    assert !SomeOutOfSync(w);
    assert Here(w, x);
    WindowUpgradesIff(w);
  }
}
