/**
 * Kubernetes versions over whole runs: no component ever gets ahead of an apiserver, as long as the
 * nodes that join fit in.
 *
 * The claims are about the provisioned nodes with a name in `w`. With all names in it they are about
 * the whole cluster; with only some, other nodes may come and go as they like.
 */
module VersionSkew {
  import opened Types
  import opened NodeSteps
  import opened Protocol
  import opened PlanShape
  import opened OwnInstance

  // ---------------------------------------------------------------- one node

  predicate Below(v: Versions, bound: nat) {
    v.controllerManager <= bound && v.scheduler <= bound && v.kubelet <= bound
  }

  predicate Upgrades(n: Node) { n.op.Some? && KindOf(n).ComponentUpgrade? }

  function ComponentOf(n: Node): Component
    requires n.op.Some?
  {
    n.op.value.job.component
  }

  /** A component upgrade that got past Pending, and did not fail, has recorded the target. */
  predicate Bumped(n: Node, target: nat) {
    Upgrades(n) && !PhaseOf(n).Pending? && !PhaseOf(n).Failed? ==>
      !ComponentOf(n).NoComponent? && n.versions.Get(ComponentOf(n)) == target
  }

  predicate AtMost(v: Versions, target: nat) { Below(v, target) && v.apiserver <= target }

  predicate NodeVersions(n: Node, target: nat) {
    n.versions == Defaulted(n.versions, n.role, target) && AtMost(n.versions, target) && Bumped(n, target)
  }

  /** The versions are as before, or the component about to be upgraded was set to the target. */
  predicate VersionsMove(n: Node, m: Node, target: nat) {
    || m.versions == n.versions
    || (Upgrades(n) && PhaseOf(n).Pending? && !ComponentOf(n).NoComponent? && m.versions == n.versions.Set(ComponentOf(n), target))
  }

  lemma ComponentVersions(n: Node, m: Node, d: Deed, target: nat)
    requires n.op.Some? && KindOf(n).ComponentUpgrade? && ComponentMove(n, m, d, target)
    requires NodeVersions(n, target) && 0 < target && !PhaseOf(n).Failed?
    ensures NodeVersions(m, target) && VersionsMove(n, m, target)
  {
  }

  lemma HandlerVersions(n: Node, m: Node, d: Deed, busy: bool, target: nat)
    requires n.op.Some? && HandlerMove(n, m, d, busy, target) && NodeVersions(n, target) && 0 < target && !PhaseOf(n).Failed?
    ensures NodeVersions(m, target) && VersionsMove(n, m, target)
  {
    hide ApplyMove, UpgradeMove, ComponentMove, PowerMove, ResetMove, BootstrapMove;
    HandlerKeepsFrame(n, m, d, busy, target);
    if !busy && KindOf(n).ComponentUpgrade? { ComponentVersions(n, m, d, target); }
  }

  lemma PassVersions(n: Node, m: Node, pass: Pass, busy: bool, target: nat)
    requires NodeMove(n, m, pass, busy, target) && NodeVersions(n, target) && 0 < target
    ensures NodeVersions(m, target) && VersionsMove(n, m, target)
  {
    hide HandlerMove;
    match pass
    case Upkeep => UpkeepKeepsIdentity(n, m, target);
    case Start(seen, d) => HandlerVersions(seen, m, d, busy, target);
    case Run(d) => HandlerVersions(n, m, d, busy, target);
  }

  // ---------------------------------------------------------------- the cluster

  ghost predicate In(w: iset<Name>, s: State, x: Name) { x in w && x in s.members && Eligible(NodeOf(s, x)) }

  ghost predicate InCp(w: iset<Name>, s: State, x: Name) { In(w, s, x) && NodeOf(s, x).role.Controlplane? }

  ghost predicate AllServersNew(w: iset<Name>, s: State) {
    forall y :: InCp(w, s, y) ==> NodeOf(s, y).versions.apiserver == s.target
  }

  /** The skew policy: nothing is newer than any apiserver. */
  ghost predicate NoSkew(w: iset<Name>, s: State) {
    forall x, y :: In(w, s, x) && InCp(w, s, y) ==> Below(NodeOf(s, x).versions, NodeOf(s, y).versions.apiserver)
  }

  /** An upgrade of another component than the apiserver is about to record the target. */
  predicate Late(n: Node) { Upgrades(n) && !ComponentOf(n).APIServer? && PhaseOf(n).Pending? }

  ghost predicate SomeLate(w: iset<Name>, s: State) { exists x :: In(w, s, x) && Late(NodeOf(s, x)) }

  function Target(x: Name, c: Component): Slot { Slot(x, PlainJob(ComponentUpgrade, c)) }

  predicate LateSlot(slot: Slot) { slot.job.kind.ComponentUpgrade? && !slot.job.component.APIServer? }

  predicate LateEntry(plan: seq<Entry>, k: int) { 0 <= k < |plan| && plan[k].phase.Pending? && LateSlot(plan[k].slot) }

  /** The plan still has the apiserver of `y` to upgrade before entry `k`. */
  predicate ServerAhead(plan: seq<Entry>, y: Name, k: int) {
    exists j :: 0 <= j < k && j < |plan| && plan[j].slot == Target(y, APIServer) && !plan[j].phase.Done?
  }

  /** Before every entry for another component, each apiserver is at the target or still planned. */
  ghost predicate Guarded(w: iset<Name>, s: State, plan: seq<Entry>) {
    forall k, y :: LateEntry(plan, k) && InCp(w, s, y) ==>
      NodeOf(s, y).versions.apiserver == s.target || ServerAhead(plan, y, k)
  }

  ghost predicate NodesInv(w: iset<Name>, s: State) {
    && 0 < s.target && NoSkew(w, s)
    && (SomeLate(w, s) ==> AllServersNew(w, s))
    && forall x :: In(w, s, x) ==> NodeVersions(NodeOf(s, x), s.target)
  }

  ghost predicate VersionInv(w: iset<Name>, s: State) {
    && OwnInv(s) && NodesInv(w, s)
    && (s.op.Some? && s.op.value.phase.InProgress? ==> Guarded(w, s, s.op.value.plan))
  }

  // ---------------------------------------------------------------- nodes that join

  ghost predicate Joins(w: iset<Name>, s: State, t: State, x: Name) { In(w, t, x) && !In(w, s, x) }

  /** The newcomer is no newer than any apiserver, and its own apiserver, if it has one, no older than anything. */
  ghost predicate FitsNow(w: iset<Name>, t: State, x: Name)
    requires In(w, t, x)
  {
    && (forall y :: InCp(w, t, y) ==> Below(NodeOf(t, x).versions, NodeOf(t, y).versions.apiserver))
    && (InCp(w, t, x) ==> forall z :: In(w, t, z) ==> Below(NodeOf(t, z).versions, NodeOf(t, x).versions.apiserver))
  }

  /** An upgrade under way will not wait for the apiserver of `x`. */
  ghost predicate Overtaken(w: iset<Name>, t: State, x: Name) {
    || SomeLate(w, t)
    || (t.op.Some? && t.op.value.phase.InProgress? &&
        exists k :: LateEntry(t.op.value.plan, k) && !ServerAhead(t.op.value.plan, x, k))
  }

  ghost predicate Fits(w: iset<Name>, t: State, x: Name)
    requires In(w, t, x)
  {
    && FitsNow(w, t, x) && AtMost(NodeOf(t, x).versions, t.target)
    && (InCp(w, t, x) && Overtaken(w, t, x) ==> NodeOf(t, x).versions.apiserver == t.target)
  }

  /**
   * Cluster operations of every kind may be requested at any time, and node operations too, except
   * upgrades of single components and anything on the node the runner is waiting for.
   */
  predicate Careful(s: State, a: Action) { Spared(s, a) && (a.NodeRequest? ==> !a.job.kind.ComponentUpgrade?) }

  /** Nodes leave as they like; those that join fit in. */
  ghost predicate Orderly(w: iset<Name>, s: State, a: Action, t: State) {
    Careful(s, a) && forall x :: Joins(w, s, t, x) ==> Fits(w, t, x)
  }

  lemma JoinsByProvision(w: iset<Name>, s: State, a: Action, t: State, x: Name)
    requires Step(s, a, t) && Joins(w, s, t, x)
    ensures NodeOf(t, x).op.Some? && KindOf(NodeOf(t, x)).Provision?
    ensures NodeOf(t, x).versions == Defaulted(NodeOf(t, x).versions, NodeOf(t, x).role, s.target)
  {
    hide Step, NodeMove, AtEntry;
    StepFate(s, a, t, x);
    if a.NodePass? && x in s.members && t.members[x] != s.members[x] {
      BecomesProvisioned(NodeOf(s, x), NodeOf(t, x), a.pass, OthersActive(s, x), s.target);
    }
  }

  // ---------------------------------------------------------------- steps: nodes

  /** The versions on record stay sound and move only to the target; the operation is the same or was just started. */
  ghost predicate NodeStepped(s: State, a: Action, n: Node, m: Node, x: Name) {
    && NodeVersions(m, s.target) && VersionsMove(n, m, s.target) && m.role == n.role
    && (Late(m) ==> Late(n) || Launches(s, a, x, m.op.value.job))
  }

  lemma PassStepped(s: State, a: Action, m: Node, x: Name)
    requires x in s.members && 0 < s.target && NodeVersions(NodeOf(s, x), s.target)
    requires a.NodePass? && NodeMove(NodeOf(s, x), m, a.pass, OthersActive(s, x), s.target)
    ensures NodeStepped(s, a, NodeOf(s, x), m, x)
  {
    hide NodeMove, NodeVersions, VersionsMove, Launches;
    PassFacts(NodeOf(s, x), m, a.pass, OthersActive(s, x), s.target);
    PassVersions(NodeOf(s, x), m, a.pass, OthersActive(s, x), s.target);
  }

  lemma OtherStepped(s: State, a: Action, n: Node, m: Node, x: Name)
    requires NodeVersions(n, s.target)
    requires m == n.(op := m.op, boot := m.boot, cordoned := m.cordoned, deleting := m.deleting, holds := m.holds)
    requires m.op == n.op || (m.op.Some? && PhaseOf(m).Pending? && (KindOf(m).ComponentUpgrade? ==> Launches(s, a, x, m.op.value.job)))
    ensures NodeStepped(s, a, n, m, x)
  {
    hide Launches;
  }

  lemma NodeStep(s: State, a: Action, t: State, x: Name)
    requires Step(s, a, t) && Careful(s, a) && x in s.members && x in t.members && 0 < s.target
    requires NodeVersions(NodeOf(s, x), s.target)
    ensures NodeStepped(s, a, NodeOf(s, x), NodeOf(t, x), x)
  {
    hide Step, NodeMove, AtEntry, Spared, NodeVersions, NodeStepped;
    StepFate(s, a, t, x);
    if a.NodePass? && t.members[x] != s.members[x] {
      PassStepped(s, a, NodeOf(t, x), x);
    } else {
      OtherStepped(s, a, NodeOf(s, x), NodeOf(t, x), x);
    }
  }

  /** Every node is a newcomer, or was there and moved as `NodeStepped` says. */
  ghost predicate Moved(w: iset<Name>, s: State, a: Action, t: State) {
    t.target == s.target && forall x :: In(w, t, x) && In(w, s, x) ==> NodeStepped(s, a, NodeOf(s, x), NodeOf(t, x), x)
  }

  lemma NodesMove(w: iset<Name>, s: State, a: Action, t: State)
    requires NodesInv(w, s) && Step(s, a, t) && Careful(s, a)
    ensures Moved(w, s, a, t)
  {
    StepCounters(s, a, t);
    hide Step, Careful, NoSkew, SomeLate, AllServersNew, NodeVersions, NodeStepped;
    forall x | In(w, t, x) && In(w, s, x) ensures NodeStepped(s, a, NodeOf(s, x), NodeOf(t, x), x) {
      NodeStep(s, a, t, x);
    }
  }

  /** Nobody who was there before comes to violate the policy. */
  lemma OldNodesStayInOrder(w: iset<Name>, s: State, a: Action, t: State, x: Name, y: Name)
    requires NodesInv(w, s) && Moved(w, s, a, t)
    requires In(w, t, x) && In(w, s, x) && InCp(w, t, y) && In(w, s, y)
    ensures Below(NodeOf(t, x).versions, NodeOf(t, y).versions.apiserver)
  {
    hide Launches, Defaulted, Bumped;
    assert InCp(w, s, y);
    if Late(NodeOf(s, x)) { assert SomeLate(w, s); }
  }

  lemma JoinersDecide(w: iset<Name>, s: State, t: State)
    requires forall x, y :: In(w, t, x) && In(w, s, x) && InCp(w, t, y) && In(w, s, y) ==>
               Below(NodeOf(t, x).versions, NodeOf(t, y).versions.apiserver)
    ensures NoSkew(w, t) <==> forall x :: Joins(w, s, t, x) ==> FitsNow(w, t, x)
  {
    hide Below, Eligible;
    if forall x :: Joins(w, s, t, x) ==> FitsNow(w, t, x) {
      forall x, y | In(w, t, x) && InCp(w, t, y) ensures Below(NodeOf(t, x).versions, NodeOf(t, y).versions.apiserver) {
        assert (In(w, s, x) && In(w, s, y)) || Joins(w, s, t, x) || Joins(w, s, t, y);
      }
    }
  }

  /**
   * The exact condition for a step to keep the policy: each node that joins by it is no newer than any
   * apiserver, and a joining apiserver no older than anything.
   */
  lemma JoinIff(w: iset<Name>, s: State, a: Action, t: State)
    requires VersionInv(w, s) && Step(s, a, t) && Careful(s, a)
    ensures NoSkew(w, t) <==> forall x :: Joins(w, s, t, x) ==> FitsNow(w, t, x)
  {
    NodesMove(w, s, a, t);
    hide Step, Careful, OwnInv, Guarded, Below, Moved, NodesInv, NoSkew, Joins, FitsNow, In, InCp;
    forall x, y | In(w, t, x) && In(w, s, x) && InCp(w, t, y) && In(w, s, y)
      ensures x in t.members && y in t.members && Below(NodeOf(t, x).versions, NodeOf(t, y).versions.apiserver)
    {
      InMembers(w, t, x, y);
      OldNodesStayInOrder(w, s, a, t, x, y);
    }
    JoinersDecide(w, s, t);
  }

  lemma InMembers(w: iset<Name>, s: State, x: Name, y: Name)
    requires In(w, s, x) && InCp(w, s, y)
    ensures x in s.members && y in s.members
  {
  }

  /** A started entry for another component finds all apiservers upgraded. */
  lemma LateStart(w: iset<Name>, s: State, i: nat)
    requires VersionInv(w, s) && AtEntry(s, i, Pending) && LateSlot(s.op.value.plan[i].slot)
    ensures AllServersNew(w, s)
  {
    hide OwnInv, NodesInv;
    var plan := s.op.value.plan;
    assert LateEntry(plan, i);
    forall y | InCp(w, s, y) ensures NodeOf(s, y).versions.apiserver == s.target {
      assert !ServerAhead(plan, y, i);
    }
  }

  lemma LaunchedLate(w: iset<Name>, s: State, a: Action, x: Name, n: Node)
    requires VersionInv(w, s) && Late(n) && Launches(s, a, x, n.op.value.job)
    ensures AllServersNew(w, s)
  {
    LateStart(w, s, a.i);
  }

  /** The apiserver of a control plane that was there stays at the target; that of a newcomer is there if it has to be. */
  lemma ServerStaysNew(w: iset<Name>, s: State, a: Action, t: State, y: Name)
    requires Moved(w, s, a, t) && InCp(w, t, y)
    requires In(w, s, y) ==> NodeOf(s, y).versions.apiserver == s.target
    requires Joins(w, s, t, y) ==> Fits(w, t, y) && Overtaken(w, t, y)
    ensures NodeOf(t, y).versions.apiserver == t.target
  {
    hide Launches, NodeVersions, FitsNow, Overtaken;
  }

  lemma LateOpsStay(w: iset<Name>, s: State, a: Action, t: State)
    requires VersionInv(w, s) && Step(s, a, t) && Orderly(w, s, a, t) && SomeLate(w, t)
    ensures AllServersNew(w, t)
  {
    NodesMove(w, s, a, t);
    var x :| In(w, t, x) && Late(NodeOf(t, x));
    if !In(w, s, x) {
      JoinsByProvision(w, s, a, t, x);
      assert false;
    }
    assert NodeStepped(s, a, NodeOf(s, x), NodeOf(t, x), x);
    hide Step, Careful, OwnInv, Guarded, NodeVersions, VersionsMove, NoSkew, AtEntry;
    if Late(NodeOf(s, x)) {
      assert SomeLate(w, s);
    } else {
      LaunchedLate(w, s, a, x, NodeOf(t, x));
    }
    hide Late, Moved, Fits;
    forall y | InCp(w, t, y) ensures NodeOf(t, y).versions.apiserver == t.target {
      assert In(w, s, y) ==> InCp(w, s, y) by { RoleKept(w, s, a, t, y); }
      assert Joins(w, s, t, y) ==> Fits(w, t, y);
      ServerStaysNew(w, s, a, t, y);
    }
  }

  lemma RoleKept(w: iset<Name>, s: State, a: Action, t: State, y: Name)
    requires Moved(w, s, a, t) && InCp(w, t, y)
    ensures In(w, s, y) ==> InCp(w, s, y)
  {
  }

  lemma VersionsStaySound(w: iset<Name>, s: State, a: Action, t: State)
    requires Step(s, a, t) && Orderly(w, s, a, t) && Moved(w, s, a, t)
    ensures forall x :: In(w, t, x) ==> NodeVersions(NodeOf(t, x), t.target)
  {
    forall x | In(w, t, x) ensures NodeVersions(NodeOf(t, x), t.target) {
      if In(w, s, x) {
        hide *;
        SteppedIsSound(w, s, a, t, x);
      } else {
        JoinsByProvision(w, s, a, t, x);
        hide Step, Careful, FitsNow, Overtaken, Defaulted, Moved;
        assert Joins(w, s, t, x);
        assert t.target == s.target by { MovedKeepsTarget(w, s, a, t); }
      }
    }
  }

  lemma MovedKeepsTarget(w: iset<Name>, s: State, a: Action, t: State)
    requires Moved(w, s, a, t)
    ensures t.target == s.target
  {
  }

  lemma SteppedIsSound(w: iset<Name>, s: State, a: Action, t: State, x: Name)
    requires Moved(w, s, a, t) && In(w, t, x) && In(w, s, x)
    ensures NodeVersions(NodeOf(t, x), t.target)
  {
  }

  lemma NodesStep(w: iset<Name>, s: State, a: Action, t: State)
    requires VersionInv(w, s) && Step(s, a, t) && Orderly(w, s, a, t)
    ensures NodesInv(w, t)
  {
    NodesMove(w, s, a, t);
    JoinIff(w, s, a, t);
    if SomeLate(w, t) { LateOpsStay(w, s, a, t); }
    VersionsStaySound(w, s, a, t);
    hide Step, Careful, SomeLate, AllServersNew, NoSkew, FitsNow, Overtaken, OwnInv, Guarded, NodeVersions, NodeStepped;
  }

  // ---------------------------------------------------------------- steps: the plan

  /** With the plan as it was, newcomers and all the others stay guarded. */
  lemma GuardStays(w: iset<Name>, s: State, a: Action, t: State, plan: seq<Entry>)
    requires Moved(w, s, a, t) && Guarded(w, s, plan)
    requires forall x :: Joins(w, s, t, x) ==> Fits(w, t, x)
    requires (exists x :: Joins(w, s, t, x)) ==> t.op.Some? && t.op.value.phase.InProgress? && t.op.value.plan == plan
    ensures Guarded(w, t, plan)
  {
    hide NodeVersions, Launches, LateEntry, ServerAhead, FitsNow, SomeLate;
    forall k, y | LateEntry(plan, k) && InCp(w, t, y)
      ensures NodeOf(t, y).versions.apiserver == t.target || ServerAhead(plan, y, k)
    {
      if In(w, s, y) {
        assert InCp(w, s, y);
        if NodeOf(s, y).versions.apiserver == s.target { ServerStaysNew(w, s, a, t, y); }
      } else {
        assert Joins(w, s, t, y) && Fits(w, t, y);
      }
    }
  }

  /** The four stages of the upgrade plan: every apiserver comes first. */
  lemma UpgradePlanGuards(w: iset<Name>, s: State, cps: seq<Name>, ws: seq<Name>)
    requires Lists(cps, s, Controlplane)
    ensures Guarded(w, s, NewPlan(UpgradeSlots(cps, ws)))
  {
    hide Ascending;
    var plan := NewPlan(UpgradeSlots(cps, ws));
    forall k, y | LateEntry(plan, k) && InCp(w, s, y) ensures ServerAhead(plan, y, k) {
      var i :| 0 <= i < |cps| && cps[i] == y;
      assert |cps| <= k;
      assert plan[i].slot == Target(y, APIServer);
    }
  }

  lemma OtherPlansGuard(w: iset<Name>, s: State, k: ClusterKind, cps: seq<Name>, ws: seq<Name>)
    requires !k.KubernetesUpgrade?
    ensures Guarded(w, s, NewPlan(Slots(k, cps, ws)))
  {
  }

  lemma PlanStepGuards(w: iset<Name>, s: State, a: Action, t: State)
    requires Step(s, a, t) && a.Plan? && t.op.Some? && t.op.value.phase.InProgress?
    ensures Guarded(w, t, t.op.value.plan)
  {
    var k := s.op.value.kind;
    SameLists(s, t, a.cps);
    if k.KubernetesUpgrade? { UpgradePlanGuards(w, t, a.cps, a.ws); } else { OtherPlansGuard(w, t, k, a.cps, a.ws); }
    hide Lists, Refused, Guarded, NewPlan, UpgradeSlots;
  }

  lemma SameLists(s: State, t: State, cps: seq<Name>)
    requires Lists(cps, s, Controlplane)
    ensures t.members == s.members ==> Lists(cps, t, Controlplane)
  {
    hide Ascending;
  }

  /** An apiserver entry becomes Done only with that apiserver at the target. */
  lemma ObservedServer(w: iset<Name>, s: State, i: nat, y: Name)
    requires VersionInv(w, s) && AtEntry(s, i, Applying) && InCp(w, s, y) && s.op.value.plan[i].slot == Target(y, APIServer)
    requires OpAt(s, y).Some? && OpAt(s, y).value.phase.Done?
    ensures NodeOf(s, y).versions.apiserver == s.target
  {
    hide Ledger, NodeHistory.AcceptHistory, Current, NoSkew, SomeLate, AllServersNew, Guarded;
    assert Runs(s, s.op.value.plan[i].slot, s.op.value.plan[i].tag);
    assert Bumped(NodeOf(s, y), s.target);
  }

  /** Rewriting one entry keeps the guard, if an apiserver entry that becomes Done has its apiserver at the target. */
  lemma RewritingGuards(w: iset<Name>, s: State, plan: seq<Entry>, i: nat, e: Entry)
    requires Guarded(w, s, plan) && i < |plan| && e.slot == plan[i].slot && !e.phase.Pending?
    requires forall y :: InCp(w, s, y) && e.slot == Target(y, APIServer) && e.phase.Done? ==> NodeOf(s, y).versions.apiserver == s.target
    ensures Guarded(w, s, plan[i := e])
  {
    var next := plan[i := e];
    forall k, y | LateEntry(next, k) && InCp(w, s, y)
      ensures NodeOf(s, y).versions.apiserver == s.target || ServerAhead(next, y, k)
    {
      assert LateEntry(plan, k);
      if NodeOf(s, y).versions.apiserver != s.target {
        var j :| 0 <= j < k && j < |plan| && plan[j].slot == Target(y, APIServer) && !plan[j].phase.Done?;
        assert next[j].slot == Target(y, APIServer) && !next[j].phase.Done?;
      }
    }
  }

  lemma SameGuard(w: iset<Name>, s: State, t: State, plan: seq<Entry>)
    requires Guarded(w, s, plan) && t.members == s.members && t.target == s.target
    ensures Guarded(w, t, plan)
  {
    assert forall y :: InCp(w, t, y) <==> InCp(w, s, y);
  }

  lemma ObserveGuards(w: iset<Name>, s: State, a: Action, t: State)
    requires VersionInv(w, s) && Step(s, a, t) && a.ObserveEntry?
    ensures t.op.Some? && Guarded(w, t, t.op.value.plan)
  {
    ObserveFacts(s, a, t);
    hide Step, Current, OwnInv, NodesInv, Guarded;
    var plan, i := s.op.value.plan, a.i;
    var e := plan[i].(phase := PhaseOf(NodeOf(s, plan[i].slot.node)));
    forall y | InCp(w, s, y) && e.slot == Target(y, APIServer) && e.phase.Done? ensures NodeOf(s, y).versions.apiserver == s.target {
      ObservedServer(w, s, i, y);
    }
    RewritingGuards(w, s, plan, i, e);
    SameGuard(w, s, t, plan[i := e]);
  }

  lemma ConfirmGuards(w: iset<Name>, s: State, a: Action, t: State)
    requires VersionInv(w, s) && Step(s, a, t) && a.ConfirmStart?
    ensures t.op.Some? && Guarded(w, t, t.op.value.plan)
  {
    ConfirmFacts(s, a, t);
    assert s.op.value.phase.InProgress? by { StartingMeansInProgress(s); }
    hide Step, OwnInv, NodesInv, Guarded;
    var plan, i := s.op.value.plan, s.flight.entry;
    var e := plan[i].(phase := Applying, tag := s.flight.id);
    RewritingGuards(w, s, plan, i, e);
    SameGuard(w, s, t, plan[i := e]);
  }

  /** Whatever else the controllers do to a plan under way, they leave it as it is. */
  lemma PlanOtherwiseKept(s: State, a: Action, t: State)
    requires Owed(s.flight, s.op) && Step(s, a, t) && !a.Plan? && !a.ObserveEntry? && !a.ConfirmStart?
    requires t.op.Some? && t.op.value.phase.InProgress?
    ensures s.op == t.op
  {
    hide NodeMove, Current;
    if Elsewhere(a) {
      hide Step;
      ElsewhereKeepsPlan(s, a, t);
    }
  }

  lemma PlanStaysGuarded(w: iset<Name>, s: State, a: Action, t: State)
    requires VersionInv(w, s) && Step(s, a, t) && Orderly(w, s, a, t) && t.op.Some? && t.op.value.phase.InProgress?
    ensures Guarded(w, t, t.op.value.plan)
  {
    hide Guarded;
    if a.Plan? {
      PlanStepGuards(w, s, a, t);
    } else if a.ObserveEntry? {
      ObserveGuards(w, s, a, t);
    } else if a.ConfirmStart? {
      ConfirmGuards(w, s, a, t);
    } else {
      PlanOtherwiseKept(s, a, t);
      NodesMove(w, s, a, t);
      hide Step, Careful, NodesInv, OwnInv, Moved, Fits, Joins;
      GuardStays(w, s, a, t, s.op.value.plan);
    }
  }

  lemma StepKeepsVersions(w: iset<Name>, s: State, a: Action, t: State)
    requires VersionInv(w, s) && Step(s, a, t) && Orderly(w, s, a, t)
    ensures VersionInv(w, t)
  {
    StepKeepsOwnInv(s, a, t);
    NodesStep(w, s, a, t);
    if t.op.Some? && t.op.value.phase.InProgress? { PlanStaysGuarded(w, s, a, t); }
    hide Step, OwnInv, NodesInv, Guarded, Orderly;
  }

  // ---------------------------------------------------------------- runs

  /** No cluster operation yet, no component upgrade pending, all versions recorded and not beyond the target. */
  ghost predicate Sound(w: iset<Name>, s: State) {
    && NothingPlanned(s) && 0 < s.target && NoSkew(w, s)
    && forall x :: In(w, s, x) ==> NodeVersions(NodeOf(s, x), s.target) && !Late(NodeOf(s, x))
  }

  ghost predicate OrderlyRun(w: iset<Name>, states: seq<State>, actions: seq<Action>) {
    && IsRun(states, actions)
    && forall i :: 0 <= i < |actions| ==> Orderly(w, states[i], actions[i], states[i + 1])
  }

  lemma {:induction false} VersionsOverRuns(w: iset<Name>, states: seq<State>, actions: seq<Action>, k: nat)
    requires OrderlyRun(w, states, actions) && k < |states| && Sound(w, states[0])
    ensures VersionInv(w, states[k])
  {
    hide Step, Orderly, NodeVersions, NoSkew, Ledger, NodeHistory.AcceptHistory;
    if k > 0 {
      hide VersionInv;
      VersionsOverRuns(w, states, actions, k - 1);
      StepKeepsVersions(w, states[k - 1], actions[k - 1], states[k]);
    }
  }

  /**
   * In every state of every run in which newcomers fit in, no kubelet, controller-manager or scheduler
   * is newer than the apiserver of any control plane.
   */
  lemma NeverSkewed(w: iset<Name>, states: seq<State>, actions: seq<Action>, k: nat, x: Name, y: Name)
    requires OrderlyRun(w, states, actions) && k < |states| && Sound(w, states[0])
    requires In(w, states[k], x) && InCp(w, states[k], y)
    ensures Below(NodeOf(states[k], x).versions, NodeOf(states[k], y).versions.apiserver)
  {
    hide Step, Orderly, OwnInv;
    VersionsOverRuns(w, states, actions, k);
  }

  /** No node with a name in `w` joins. Those that are there may leave, and others come and go. */
  ghost predicate NobodyJoins(w: iset<Name>, s: State, t: State) { forall x :: !Joins(w, s, t, x) }

  /**
   * For the nodes that were there from the start nothing has to be asked of newcomers: however others
   * join and leave, none of them gets ahead of the apiserver of any of them.
   */
  lemma NeverSkewedAmongThose(w: iset<Name>, states: seq<State>, actions: seq<Action>, k: nat, x: Name, y: Name)
    requires IsRun(states, actions) && k < |states| && Sound(w, states[0])
    requires forall i :: 0 <= i < |actions| ==> Careful(states[i], actions[i]) && NobodyJoins(w, states[i], states[i + 1])
    requires In(w, states[k], x) && InCp(w, states[k], y)
    ensures Below(NodeOf(states[k], x).versions, NodeOf(states[k], y).versions.apiserver)
  {
    hide Step, Careful, Sound, Fits;
    forall i | 0 <= i < |actions| ensures Orderly(w, states[i], actions[i], states[i + 1]) {
      assert NobodyJoins(w, states[i], states[i + 1]);
    }
    NeverSkewed(w, states, actions, k, x, y);
  }

  // ---------------------------------------------------------------- newcomers that do not fit in

  lemma FirstConfigAccepted(n: Node, m: Node, busy: bool, target: nat)
    requires n.versions == Defaulted(n.versions, n.role, target) && n.provisioned != Yes && n.holds.None?
    requires n.op.Some? && KindOf(n).Provision? && PhaseOf(n).Provisioning? && n.op.value.job.hasAddress
    requires m == n.(provisioned := Yes, holds := Some(n.versions), op := Some(n.op.value.(phase := ProvisionVerifying)))
    ensures NodeMove(n, m, Upkeep, busy, target)
  {
    hide Defaulted;
    assert ProvisionMove(n, m);
  }

  /**
   * A worker that is provisioned for the first time while some apiserver is still below the target has
   * a newer kubelet than that apiserver from its first moment on.
   */
  lemma FreshWorkerIsTooNew(w: iset<Name>, s: State, x: Name, y: Name) returns (t: State)
    requires x in w && x in s.members && InCp(w, s, y) && x != y && NodeOf(s, y).versions.apiserver < s.target
    requires var n := NodeOf(s, x);
             && n.role.Worker? && n.provisioned != Yes && n.holds.None? && n.versions == Defaulted(Versions(0, 0, 0, 0), Worker, s.target)
             && n.op.Some? && KindOf(n).Provision? && PhaseOf(n).Provisioning? && n.op.value.job.hasAddress
    ensures Step(s, NodePass(x, Upkeep), t) && Joins(w, s, t, x) && !NoSkew(w, t)
  {
    var n := NodeOf(s, x);
    var m := n.(provisioned := Yes, holds := Some(n.versions), op := Some(n.op.value.(phase := ProvisionVerifying)));
    FirstConfigAccepted(n, m, OthersActive(s, x), s.target);
    hide NodeMove;
    t := WithMember(s, x, Member(m, TrailOf(s, x), s.members[x].sawBootstrap));
    assert PassStep(s, t, x, Upkeep);
    hide Step;
    assert In(w, t, x) && InCp(w, t, y) && NodeOf(t, y) == NodeOf(s, y);
  }

  /** Recording the target for another component keeps the policy exactly if all apiservers are there. */
  lemma LateRecordIff(w: iset<Name>, s: State, t: State, y: Name)
    requires NodesInv(w, s) && In(w, s, y) && Late(NodeOf(s, y)) && !ComponentOf(NodeOf(s, y)).NoComponent?
    requires t.target == s.target && y in t.members && t.members == s.members[y := t.members[y]]
    requires Eligible(NodeOf(t, y)) && NodeOf(t, y).role == NodeOf(s, y).role
    requires NodeOf(t, y).versions == NodeOf(s, y).versions.Set(ComponentOf(NodeOf(s, y)), s.target)
    ensures NoSkew(w, t) <==> AllServersNew(w, t)
  {
    assert forall x :: (In(w, t, x) <==> In(w, s, x)) && (InCp(w, t, x) <==> InCp(w, s, x));
    assert forall x :: In(w, s, x) ==> AtMost(NodeOf(t, x).versions, s.target);
    var c := ComponentOf(NodeOf(s, y));
    assert NodeOf(t, y).versions.Get(c) == s.target;
  }

  /**
   * Why a control plane that joins while an upgrade is under way must be at the target already, even
   * if it fits at that moment: with an upgrade of another component pending on a quiet cluster, one
   * pass breaks the policy.
   */
  lemma OvertakenServerBreaks(w: iset<Name>, s: State, x: Name, y: Name) returns (pass: Pass, t: State)
    requires InCp(w, s, x) && NodeOf(s, x).versions.apiserver < s.target
    requires In(w, s, y) && Late(NodeOf(s, y)) && InSync(NodeOf(s, y)) && !OthersActive(s, y)
    requires ComponentFits(ComponentOf(NodeOf(s, y)), NodeOf(s, y).role)
    ensures Step(s, NodePass(y, pass), t) && !NoSkew(w, t)
  {
    var n := NodeOf(s, y);
    var m;
    pass, m := RecordsTarget(n, s.target);
    hide NodeMove, Late;
    t := WithMember(s, y, Member(m, Record(TrailOf(s, y), n, pass), s.members[y].sawBootstrap));
    assert PassStep(s, t, y, pass);
    hide Step;
    assert In(w, t, y) && InCp(w, t, x) && NodeOf(t, x).versions.apiserver < s.target;
  }

  /** The first half of a component upgrade's Pending pass. */
  lemma RecordsTarget(n: Node, target: nat) returns (pass: Pass, m: Node)
    requires Late(n) && InSync(n) && Eligible(n) && ComponentFits(ComponentOf(n), n.role)
    ensures NodeMove(n, m, pass, false, target) && m.op == n.op && m.role == n.role && m.provisioned == Yes
    ensures m.versions == n.versions.Set(ComponentOf(n), target)
    ensures m.versions.apiserver == n.versions.apiserver && !exists b: nat :: b < target && Below(m.versions, b)
  {
    var seen := n.(bootID := n.boot, ready := Yes, configInSync := Yes, k8sInSync := FromBool(UpToDate(n, target)));
    m := seen.(versions := n.versions.Set(ComponentOf(n), target));
    pass := Start(seen, Nothing);
    assert m.versions.Get(ComponentOf(n)) == target;
  }
}
