/** Automation sends its Bootstrap calls to one node only, however often it sends them. */
module BootstrapOnce {
  import opened Types
  import opened NodeSteps
  import opened Protocol
  import opened PlanShape

  /**
   * Users may request any cluster operation but Bootstrap and any node operation but Bootstrap and
   * Reset. Nodes are not cleaned up or removed.
   */
  predicate HandsOff(a: Action) {
    && (a.UserRequest? ==> !a.kind.ClusterBootstrap?)
    && (a.NodeRequest? ==> !a.job.kind.Bootstrap? && !a.job.kind.Reset?)
    && !a.Cleanup? && !a.Vanishes?
  }

  // ---------------------------------------------------------------- one node

  /** No Provision has got going on the node since it was provisioned. */
  predicate ProvisionSpent(n: Node) {
    && n.op.Some?
    && (KindOf(n).Provision? ==> PhaseOf(n).Pending? || PhaseOf(n).Failed?)
  }

  /** What is known of a node on which a Bootstrap was started. */
  predicate Pinned(n: Node) { n.role.Controlplane? && n.provisioned == Yes && ProvisionSpent(n) }

  predicate BootstrapCalls(t: Trail) { exists c :: c in t.calls && c.kind.Bootstrap? }

  predicate Accounted(w: Member) {
    && ProvisionSane(w.node) && (w.node.op.Some? ==> !KindOf(w.node).Reset? || Complete(PhaseOf(w.node)))
    && (w.sawBootstrap ==> Pinned(w.node))
    && ((w.node.op.Some? && KindOf(w.node).Bootstrap?) || BootstrapCalls(w.trail) ==> w.sawBootstrap)
  }

  lemma PassKeepsPinned(n: Node, m: Node, pass: Pass, busy: bool, target: nat)
    requires NodeMove(n, m, pass, busy, target) && Pinned(n) && ProvisionSane(n) && !ResetInProgress(n)
    ensures Pinned(m)
  {
    PassFacts(n, m, pass, busy, target);
    StaysProvisioned(n, m, pass, busy, target);
    hide HandlerMove;
    match pass
    case Upkeep =>
    case Start(seen, d) => HandlerKeepsFrame(seen, m, d, busy, target); ProvisionPassNeedsUpkeep(seen, m, d, busy, target);
    case Run(d) => HandlerKeepsFrame(n, m, d, busy, target); ProvisionPassNeedsUpkeep(n, m, d, busy, target);
  }

  lemma ProvisionPassNeedsUpkeep(n: Node, m: Node, d: Deed, busy: bool, target: nat)
    requires n.op.Some? && HandlerMove(n, m, d, busy, target)
    ensures KindOf(n).Provision? ==> m == n && d.Nothing?
  {
  }

  /** A pass adds a Bootstrap call only for a Bootstrap operation. */
  lemma RecordedCalls(t: Trail, n: Node, pass: Pass)
    requires BootstrapCalls(Record(t, n, pass))
    ensures BootstrapCalls(t) || (n.op.Some? && KindOf(n).Bootstrap?)
  {
    var c :| c in Record(t, n, pass).calls && c.kind.Bootstrap?;
    assert c in t.calls || (n.op.Some? && c.kind == KindOf(n));
  }

  lemma PassKeepsAccounted(w: Member, m: Node, pass: Pass, busy: bool, target: nat)
    requires Accounted(w) && NodeMove(w.node, m, pass, busy, target)
    ensures Accounted(Member(m, Record(w.trail, w.node, pass), w.sawBootstrap))
    ensures w.node.provisioned == Yes ==> m.provisioned == Yes
  {
    PassFacts(w.node, m, pass, busy, target);
    StaysProvisioned(w.node, m, pass, busy, target);
    if w.sawBootstrap { PassKeepsPinned(w.node, m, pass, busy, target); }
    if BootstrapCalls(Record(w.trail, w.node, pass)) { RecordedCalls(w.trail, w.node, pass); }
    hide NodeMove, Record, BootstrapCalls;
  }

  /** The runner starts nothing that would upset the account of `x`. */
  ghost predicate SafeLaunch(s: State, a: Action, x: Name)
    requires x in s.members
  {
    forall job :: Launches(s, a, x, job) ==>
      && !job.kind.Reset? && !job.kind.Provision?
      && (job.kind.Bootstrap? ==> NodeOf(s, x).role.Controlplane? && NodeOf(s, x).provisioned == Yes)
  }

  lemma LandingStaysAccounted(w: Member, v: Member)
    requires Accounted(w) && v.trail == w.trail && v.node == w.node.(op := v.node.op)
    requires v.node.op.Some? && PhaseOf(v.node).Pending? && !KindOf(v.node).Reset?
    requires v.sawBootstrap == (w.sawBootstrap || KindOf(v.node).Bootstrap?)
    requires KindOf(v.node).Bootstrap? ==> w.node.role.Controlplane? && w.node.provisioned == Yes
    ensures Accounted(v)
  {
    hide BootstrapCalls;
  }

  lemma AlteredStaysAccounted(w: Member, v: Member)
    requires Accounted(w) && v.trail == w.trail && Altered(w.node, v.node) && v.sawBootstrap == w.sawBootstrap
    ensures Accounted(v)
    ensures v.node.role == w.node.role && v.node.provisioned == w.node.provisioned
  {
    hide BootstrapCalls;
  }

  /** What lands on a node is none of the operations that would upset its account. */
  lemma LandsSafely(s: State, a: Action, t: State, x: Name)
    requires HandsOff(a) && x in s.members && x in t.members && SafeLaunch(s, a, x) && Landed(s, a, t, x)
    ensures var m := NodeOf(t, x);
            && m.op.Some? && !KindOf(m).Reset?
            && (KindOf(m).Bootstrap? ==> Launches(s, a, x, m.op.value.job) && m.role.Controlplane? && NodeOf(s, x).provisioned == Yes)
            && t.members[x].sawBootstrap == (s.members[x].sawBootstrap || KindOf(m).Bootstrap?)
  {
    hide AtEntry;
  }

  lemma MemberStaysAccounted(s: State, a: Action, t: State, x: Name)
    requires Step(s, a, t) && HandsOff(a) && x in s.members && Accounted(s.members[x]) && SafeLaunch(s, a, x)
    ensures x in t.members && Accounted(t.members[x])
    ensures NodeOf(t, x).role == NodeOf(s, x).role
    ensures NodeOf(s, x).provisioned == Yes ==> NodeOf(t, x).provisioned == Yes
    ensures t.members[x].sawBootstrap && !s.members[x].sawBootstrap ==>
              exists job :: Launches(s, a, x, job) && job.kind.Bootstrap?
  {
    hide Step, NodeMove, Launches, Record, Accounted, SafeLaunch, Altered;
    StepFate(s, a, t, x);
    var w, v := s.members[x], t.members[x];
    if v != w {
      if Landed(s, a, t, x) {
        LandsSafely(s, a, t, x);
        LandingStaysAccounted(w, v);
      } else if a.NodePass? {
        PassFacts(w.node, v.node, a.pass, OthersActive(s, x), s.target);
        PassKeepsAccounted(w, v.node, a.pass, OthersActive(s, x), s.target);
      } else {
        AlteredStaysAccounted(w, v);
      }
    }
  }

  // ---------------------------------------------------------------- the cluster

  predicate Marked(s: State, x: Name) { x in s.members && s.members[x].sawBootstrap }

  predicate Choice(s: State, slot: Slot) {
    && slot.job.kind.Bootstrap? && slot.node in s.members
    && NodeOf(s, slot.node).role.Controlplane? && NodeOf(s, slot.node).provisioned == Yes
  }

  ghost predicate OpAccounted(s: State, o: ClusterOp) {
    && (o.kind.ClusterBootstrap? && o.phase.ClusterPending? ==> forall x :: !Marked(s, x))
    && (o.kind.ClusterBootstrap? && o.phase.InProgress? ==>
          && |o.plan| == 1 && Choice(s, o.plan[0].slot)
          && forall x :: Marked(s, x) ==> x == o.plan[0].slot.node)
    && (!o.kind.ClusterBootstrap? && o.phase.InProgress? ==>
          forall j :: 0 <= j < |o.plan| ==>
            var k := o.plan[j].slot.job.kind; !k.Bootstrap? && !k.Reset? && !k.Provision?)
  }

  ghost predicate AtMostOneMarked(s: State) { forall x, y :: Marked(s, x) && Marked(s, y) ==> x == y }

  ghost predicate OnceInv(s: State) {
    && ShapeInv(s) && AtMostOneMarked(s)
    && s.request != Some(ClusterBootstrap)
    && (forall x :: x in s.members ==> Accounted(s.members[x]))
    && (s.op.Some? ==> OpAccounted(s, s.op.value))
  }

  lemma LaunchesAreSafe(s: State, a: Action, x: Name)
    requires OnceInv(s) && x in s.members
    ensures SafeLaunch(s, a, x)
  {
    hide ShapeInv, Accounted;
  }

  lemma NewMarkIsTheChoice(s: State, a: Action, t: State, x: Name)
    requires OnceInv(s) && Step(s, a, t) && HandsOff(a) && Marked(t, x) && !Marked(s, x)
    ensures a.StartEntry? && s.op.Some? && s.op.value.kind.ClusterBootstrap? && s.op.value.phase.InProgress?
    ensures |s.op.value.plan| == 1 && x == s.op.value.plan[0].slot.node
  {
    hide Step, ShapeInv, Accounted, AtMostOneMarked;
    if x in s.members {
      LaunchesAreSafe(s, a, x);
      MemberStaysAccounted(s, a, t, x);
    } else {
      hide NodeMove;
      StepFate(s, a, t, x);
    }
  }

  lemma MembersStayAccounted(s: State, a: Action, t: State)
    requires OnceInv(s) && Step(s, a, t) && HandsOff(a)
    ensures forall x :: x in t.members ==> Accounted(t.members[x])
    ensures forall slot :: Choice(s, slot) ==> Choice(t, slot)
    ensures AtMostOneMarked(t)
  {
    hide Step, ShapeInv, Accounted;
    forall x | x in t.members ensures Accounted(t.members[x]) {
      if x in s.members {
        LaunchesAreSafe(s, a, x);
        MemberStaysAccounted(s, a, t, x);
      } else {
        NewcomerAccounted(s, a, t, x);
      }
    }
    forall slot | Choice(s, slot) ensures Choice(t, slot) {
      LaunchesAreSafe(s, a, slot.node);
      MemberStaysAccounted(s, a, t, slot.node);
    }
    forall x, y | Marked(t, x) && Marked(t, y) ensures x == y {
      if !Marked(s, x) { NewMarkIsTheChoice(s, a, t, x); }
      if !Marked(s, y) { NewMarkIsTheChoice(s, a, t, y); }
    }
  }

  lemma NewcomerAccounted(s: State, a: Action, t: State, x: Name)
    requires Step(s, a, t) && x in t.members && x !in s.members
    ensures Accounted(t.members[x]) && !Marked(t, x)
  {
    hide Step, NodeMove;
    StepFate(s, a, t, x);
  }

  /** A marked node is a provisioned control plane whose last operation is no finished Provision. */
  lemma MarkBlocksAutomation(s: State, t: State, x: Name)
    requires OnceInv(s) && Step(s, AutoBootstrap, t)
    ensures !Marked(s, x)
  {
    assert x in s.members ==> Accounted(s.members[x]);
  }

  /** A step that leaves the cluster operation alone. */
  lemma SameOpStaysAccounted(s: State, a: Action, t: State)
    requires OnceInv(s) && Step(s, a, t) && HandsOff(a) && (Elsewhere(a) || a.StartEntry?)
    requires s.op.Some? && t.op == s.op
    requires forall slot :: Choice(s, slot) ==> Choice(t, slot)
    ensures OpAccounted(t, t.op.value)
  {
    hide Step, ShapeInv, Accounted, Choice;
    var o := s.op.value;
    forall x | Marked(t, x) && !Marked(s, x)
      ensures o.kind.ClusterBootstrap? && o.phase.InProgress? && x == o.plan[0].slot.node
    {
      NewMarkIsTheChoice(s, a, t, x);
    }
  }

  lemma NewPlanAccounted(s: State, k: ClusterKind, cps: seq<Name>, ws: seq<Name>)
    requires Lists(cps, s, Controlplane) && Lists(ws, s, Worker) && !Refused(s, k, cps, ws)
    requires k.ClusterBootstrap? ==> forall x :: !Marked(s, x)
    ensures OpAccounted(s, ClusterOp(k, InProgress, NewPlan(Slots(k, cps, ws)), Slots(k, cps, ws)))
  {
    hide Ascending;
    if k.ClusterBootstrap? { assert cps[0] in cps; }
  }

  lemma SameMembersSameAccount(s: State, t: State, o: ClusterOp)
    requires OpAccounted(s, o) && t.members == s.members
    ensures OpAccounted(t, o)
  {
    assert forall x :: Marked(t, x) <==> Marked(s, x);
  }

  lemma PlanStaysAccounted(s: State, a: Action, t: State)
    requires OnceInv(s) && Step(s, a, t) && a.Plan?
    ensures t.op.Some? && OpAccounted(t, t.op.value)
  {
    if t.op.value.phase.InProgress? {
      NewPlanAccounted(s, s.op.value.kind, a.cps, a.ws);
      hide Lists, Slots, NewPlan, Refused, OnceInv, OpAccounted;
      SameMembersSameAccount(s, t, t.op.value);
    }
  }

  /** The same nodes in the plan make the same account. */
  lemma SameSlotsSameAccount(s: State, o: ClusterOp, p: ClusterOp)
    requires OpAccounted(s, o) && p.kind == o.kind && |p.plan| == |o.plan| && !p.phase.ClusterPending?
    requires p.phase.InProgress? ==> o.phase.InProgress?
    requires forall j :: 0 <= j < |o.plan| ==> p.plan[j].slot == o.plan[j].slot
    ensures OpAccounted(s, p)
  {
  }

  lemma ClusterStaysAccounted(s: State, a: Action, t: State)
    requires OnceInv(s) && Step(s, a, t) && ClusterOnly(a) && !a.Plan?
    ensures t.op.Some? ==> OpAccounted(t, t.op.value)
    ensures t.request != Some(ClusterBootstrap)
  {
    if a.AutoBootstrap? {
      forall x ensures !Marked(s, x) { MarkBlocksAutomation(s, t, x); }
    }
    RunnerKeepsNodes(s, a, t);
    ClusterOpMoves(s, a, t);
    ClusterStepKeepsMembers(s, a, t);
    hide Step, ShapeInv, Accounted, AtMostOneMarked;
    if t.op.Some? {
      var p := t.op.value;
      if t.op != s.op && p.phase.InProgress? { SameSlotsSameAccount(s, s.op.value, p); }
      SameMembersSameAccount(s, t, p);
    }
  }

  lemma StartKeepsOp(s: State, a: Action, t: State)
    requires Step(s, a, t) && a.StartEntry?
    ensures t.op == s.op && t.request == s.request
  {
  }

  lemma StepKeepsOnce(s: State, a: Action, t: State)
    requires OnceInv(s) && Step(s, a, t) && HandsOff(a)
    ensures OnceInv(t)
  {
    StepKeepsShape(s, a, t);
    MembersStayAccounted(s, a, t);
    if a.Plan? {
      PlanStaysAccounted(s, a, t);
      assert t.request == s.request;
    } else if ClusterOnly(a) {
      hide Step, OpAccounted;
      ClusterStaysAccounted(s, a, t);
    } else {
      if a.StartEntry? { StartKeepsOp(s, a, t); } else { ElsewhereKeepsPlan(s, a, t); }
      hide Step;
      if s.op.Some? { SameOpStaysAccounted(s, a, t); }
    }
    hide ShapeInv, Accounted, OpAccounted;
  }

  // ---------------------------------------------------------------- runs

  /** Before anything was asked of the cluster: no Bootstrap anywhere. */
  ghost predicate Unbootstrapped(s: State) {
    && s.op.None? && s.request.None? && s.flight.NoFlight?
    && forall x :: x in s.members ==> Accounted(s.members[x]) && !Marked(s, x)
  }

  lemma {:induction false} OnceOverRuns(states: seq<State>, actions: seq<Action>, k: nat)
    requires IsRun(states, actions) && k < |states| && Unbootstrapped(states[0])
    requires forall i :: 0 <= i < |actions| ==> HandsOff(actions[i])
    ensures OnceInv(states[k])
  {
    hide Step, HandsOff, Accounted;
    if k > 0 {
      hide OnceInv;
      OnceOverRuns(states, actions, k - 1);
      StepKeepsOnce(states[k - 1], actions[k - 1], states[k]);
    }
  }

  predicate BootstrapCalled(s: State, x: Name) { x in s.members && BootstrapCalls(TrailOf(s, x)) }

  /** Marks are never removed, so what two different states know refers to the same node. */
  lemma {:induction false} MarksStay(states: seq<State>, actions: seq<Action>, i: nat, k: nat, x: Name)
    requires IsRun(states, actions) && i <= k < |states| && Marked(states[i], x)
    requires forall j :: 0 <= j < |actions| ==> HandsOff(actions[j])
    ensures Marked(states[k], x)
  {
    hide Step, NodeMove, AtEntry;
    if i < k {
      MarksStay(states, actions, i, k - 1, x);
      StepFate(states[k - 1], actions[k - 1], states[k], x);
    }
  }

  /**
   * Over a whole run, crashes included, all Bootstrap calls go to one and the same node, and that
   * node is a control plane.
   */
  lemma OneBootstrapNode(states: seq<State>, actions: seq<Action>, i: nat, k: nat, x: Name, y: Name)
    requires IsRun(states, actions) && i <= k < |states| && Unbootstrapped(states[0])
    requires forall j :: 0 <= j < |actions| ==> HandsOff(actions[j])
    requires BootstrapCalled(states[i], x) && BootstrapCalled(states[k], y)
    ensures x == y && NodeOf(states[k], y).role.Controlplane?
  {
    hide Step, HandsOff, BootstrapCalls, ShapeInv, OpAccounted;
    OnceOverRuns(states, actions, i);
    OnceOverRuns(states, actions, k);
    assert Accounted(states[i].members[x]) && Accounted(states[k].members[y]);
    assert Marked(states[i], x) && Marked(states[k], y);
    hide OnceInv, Accounted;
    MarksStay(states, actions, i, k, x);
    assert AtMostOneMarked(states[k]) by { assert OnceInv(states[k]); OneMark(states[k]); }
  }

  lemma OneMark(s: State)
    requires OnceInv(s)
    ensures AtMostOneMarked(s)
  {
  }
}
