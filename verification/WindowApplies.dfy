/** What plans ask for, in so many words, and what a maintenance window does about nodes out of sync. */
module WindowApplies {
  import opened Types
  import opened NodeSteps
  import opened Protocol
  import opened PlanShape
  import opened NodeHistory
  import opened OwnInstance
  import opened EligibleNodes
  import opened Automation

  /** One safe operation of this kind for every provisioned node, and nothing else. */
  ghost predicate OneEach(s: State, slots: seq<Slot>, kind: OpKind) {
    && (forall j :: 0 <= j < |slots| ==>
          Provisioned(s, slots[j].node) && slots[j].job.kind == kind && !slots[j].job.unsafe)
    && (forall x :: Provisioned(s, x) ==> exists j :: 0 <= j < |slots| && slots[j].node == x)
    && (forall j, k :: 0 <= j < k < |slots| ==> slots[j].node != slots[k].node)
  }

  lemma ListsAreDistinct(s: State, cps: seq<Name>, ws: seq<Name>)
    requires Lists(cps, s, Controlplane) && Lists(ws, s, Worker)
    ensures var all := cps + ws;
            && (forall j :: 0 <= j < |all| ==> Provisioned(s, all[j]))
            && (forall x :: Provisioned(s, x) ==> exists j :: 0 <= j < |all| && all[j] == x)
            && (forall j, k :: 0 <= j < k < |all| ==> all[j] != all[k])
  {
    var all := cps + ws;
    forall j | 0 <= j < |all| ensures Provisioned(s, all[j]) && NodeOf(s, all[j]).role == if j < |cps| then Controlplane else Worker {
      assert if j < |cps| then all[j] in cps else all[j] in ws;
    }
    forall j, k | 0 <= j < k < |all| ensures all[j] != all[k] {
      if k < |cps| { LessIsStrict(cps[j], cps[k]); }
      if j >= |cps| { LessIsStrict(ws[j - |cps|], ws[k - |cps|]); }
    }
    forall x | Provisioned(s, x) ensures exists j :: 0 <= j < |all| && all[j] == x {
      assert x in all;
    }
  }

  /** One safe Bootstrap, on the provisioned control plane that comes first by name. */
  ghost predicate OneBootstrap(s: State, slots: seq<Slot>) {
    && |slots| == 1 && slots[0].job.kind.Bootstrap? && !slots[0].job.unsafe
    && Provisioned(s, slots[0].node) && NodeOf(s, slots[0].node).role.Controlplane?
    && forall x :: Provisioned(s, x) && NodeOf(s, x).role.Controlplane? && x != slots[0].node ==> Less(slots[0].node, x)
  }

  ghost predicate SafeUpgrades(slots: seq<Slot>) {
    forall j :: 0 <= j < |slots| ==> slots[j].job.kind.ComponentUpgrade? && !slots[j].job.unsafe
  }

  lemma BootstrapMeans(s: State, cps: seq<Name>)
    requires Lists(cps, s, Controlplane) && cps != []
    ensures OneBootstrap(s, Slots(ClusterBootstrap, cps, []))
  {
    assert cps[0] in cps;
    forall x | Provisioned(s, x) && NodeOf(s, x).role.Controlplane? && x != cps[0] ensures Less(cps[0], x) {
      assert x in cps;
      var j :| 0 <= j < |cps| && cps[j] == x;
    }
  }

  lemma RollingMeans(s: State, cps: seq<Name>, ws: seq<Name>)
    requires Lists(cps, s, Controlplane) && Lists(ws, s, Worker)
    ensures OneEach(s, Slots(RollingReboot, cps, ws), Reboot) && OneEach(s, Slots(RollingApply, cps, ws), Apply)
  {
    ListsAreDistinct(s, cps, ws);
    hide Lists;
  }

  /**
   * What an accepted plan consists of: for a rolling reboot or apply, one safe Reboot or Apply for every
   * provisioned node; for a bootstrap, one Bootstrap on the first of the provisioned control planes; for
   * an upgrade, component upgrades only, all of them safe.
   */
  lemma PlanMeans(s: State, a: Action, t: State)
    requires Step(s, a, t) && a.Plan? && t.op.Some? && t.op.value.phase.InProgress?
    ensures Matches(t.op.value.plan, t.op.value.planned) && t.op.value.kind == s.op.value.kind
    ensures forall j :: 0 <= j < |t.op.value.plan| ==> t.op.value.plan[j].phase.Pending?
    ensures var slots, k := t.op.value.planned, t.op.value.kind;
            && (k.RollingReboot? ==> OneEach(s, slots, Reboot))
            && (k.RollingApply? ==> OneEach(s, slots, Apply))
            && (k.ClusterBootstrap? ==> OneBootstrap(s, slots))
            && (k.KubernetesUpgrade? ==> SafeUpgrades(slots))
  {
    var k := s.op.value.kind;
    assert !Refused(s, k, a.cps, a.ws) && t.op.value.planned == Slots(k, a.cps, a.ws) by { hide Lists, Slots; }
    if k.ClusterBootstrap? {
      BootstrapMeans(s, a.cps);
    } else {
      RollingMeans(s, a.cps, a.ws);
    }
    hide Lists, Refused, OneEach, OneBootstrap;
  }

  /** What is asked of the nodes before a plan is accepted. */
  lemma AcceptedPlanMeans(s: State, a: Action, t: State, x: Name)
    requires Step(s, a, t) && a.Plan? && t.op.Some? && t.op.value.phase.InProgress? && Provisioned(s, x)
    ensures var n, k := NodeOf(s, x), s.op.value.kind;
            && (!k.ClusterBootstrap? || n.role.Controlplane? ==> n.op.None? || n.op.value.phase.Done? || n.op.value.phase.Failed?)
            && (k.RollingApply? || k.KubernetesUpgrade? ==> n.ready == Yes && n.drift != Yes)
            && (k.ClusterBootstrap? && n.role.Controlplane? ==> n.ready == Yes && (n.configInSync == No ==> n.needsInitialUpdate == Yes))
  {
    assert x in a.cps + a.ws && (NodeOf(s, x).role.Controlplane? ==> x in a.cps);
    hide Less, Slots, NewPlan;
  }

  // ---------------------------------------------------------------- a window and the nodes that are out of sync

  /** Nothing but planning touches an operation that has just begun. */
  lemma PendingStays(s: State, a: Action, t: State)
    requires ShapeInv(s) && Step(s, a, t) && s.request.None? && s.op.Some? && s.op.value.phase.ClusterPending? && !a.Plan?
    ensures t.op == s.op
  {
    hide Lists, Refused, Slots, Current, NodeMove;
    if Elsewhere(a) {
      hide Step;
      ElsewhereKeepsPlan(s, a, t);
    }
  }

  lemma {:induction false} BegunIsWhatIsPlanned(states: seq<State>, actions: seq<Action>, k: nat, m: nat)
    requires Unattended(states, actions) && k < m < |states| && states[0].request.None? && ShapeInv(states[0])
    requires actions[k] == AutoWindow && forall j :: k < j < m ==> !actions[j].Plan?
    ensures states[m].op == states[k + 1].op && states[m].op.Some? && states[m].op.value.phase.ClusterPending?
  {
    WindowKind(states[k], states[k + 1]);
    hide Step, ShapeInv;
    if k + 1 < m {
      BegunIsWhatIsPlanned(states, actions, k, m - 1);
      RequestsStayEmpty(states, actions, m - 1);
      PendingStays(states[m - 1], actions[m - 1], states[m]);
    }
  }

  /**
   * In every unattended run: if a window begins something while a provisioned node is out of sync, then
   * what is planned next, if the plan is accepted, is one safe Apply for every provisioned node.
   */
  lemma WindowPlansApplies(states: seq<State>, actions: seq<Action>, k: nat, m: nat, x: Name)
    requires Unattended(states, actions) && k < m < |actions| && states[0].request.None? && ShapeInv(states[0])
    requires actions[k] == AutoWindow && Provisioned(states[k], x) && NodeOf(states[k], x).configInSync == No
    requires actions[m].Plan? && forall j :: k < j < m ==> !actions[j].Plan?
    ensures var o := states[m + 1].op;
            && o.Some? && o.value.kind.RollingApply? && (o.value.phase.ClusterFailed? || o.value.phase.InProgress?)
            && (o.value.phase.InProgress? ==> OneEach(states[m], o.value.planned, Apply))
  {
    WindowKind(states[k], states[k + 1]);
    BegunIsWhatIsPlanned(states, actions, k, m);
    PlanOutcome(states[m], actions[m], states[m + 1]);
    if states[m + 1].op.value.phase.InProgress? { PlanMeans(states[m], actions[m], states[m + 1]); }
  }

  lemma PlanOutcome(s: State, a: Action, t: State)
    requires Step(s, a, t) && a.Plan?
    ensures s.op.Some? && t.op.Some? && t.op.value.kind == s.op.value.kind && (t.op.value.phase.ClusterFailed? || t.op.value.phase.InProgress?)
  {
    hide Lists, Refused, Slots;
  }

  /**
   * And once that plan is at its end, every node that was provisioned when it was made has gone through
   * an Apply that found it in sync or had its configuration accepted.
   */
  lemma WindowBringsInSync(states: seq<State>, actions: seq<Action>, k: nat, m: nat, q: nat, x: Name, y: Name) returns (j: nat)
    requires Unattended(states, actions) && k < m < |actions| && m < q < |states| && NothingPlanned(states[0]) && states[0].request.None?
    requires forall i :: 0 <= i < |actions| ==> Spared(states[i], actions[i])
    requires actions[k] == AutoWindow && Provisioned(states[k], x) && NodeOf(states[k], x).configInSync == No
    requires actions[m].Plan? && (forall j :: k < j < m ==> !actions[j].Plan?) && states[m + 1].op.Some? && states[m + 1].op.value.phase.InProgress?
    requires states[q].op.Some? && states[q].op.value.planned == states[m + 1].op.value.planned
    requires (states[q].op.value.phase.Postflight? || states[q].op.value.phase.ClusterDone?) && states[q].op.value.plan != []
    requires Provisioned(states[m], y)
    ensures j < |states[q].op.value.plan|
    ensures var e := states[q].op.value.plan[j];
            && e.slot.node == y && e.slot.job.kind.Apply? && !e.slot.job.unsafe
            && e.tag in states[q].doneAt && states[q].doneAt[e.tag].slot == e.slot
            && (e.tag in states[q].doneAt[e.tag].history.skipped || e.tag in states[q].doneAt[e.tag].history.accepted)
  {
    hide Step, Spared;
    WindowPlansApplies(states, actions, k, m, x);
    var planned := states[q].op.value.planned;
    hide NothingPlanned, Unattended;
    j :| 0 <= j < |planned| && planned[j].node == y;
    PlanIsWhole(states, actions, q);
    PostflightMeansOwnDone(states, actions, q, j, j);
  }

  lemma PlanIsWhole(states: seq<State>, actions: seq<Action>, q: nat)
    requires IsRun(states, actions) && q < |states| && NothingPlanned(states[0])
    requires states[q].op.Some? && (states[q].op.value.phase.Postflight? || states[q].op.value.phase.ClusterDone?) && states[q].op.value.plan != []
    ensures Matches(states[q].op.value.plan, states[q].op.value.planned)
  {
    hide Step;
    PlansKeepTheirShape(states, actions, q);
  }
}
