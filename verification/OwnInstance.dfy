/** A finished plan means that the operations it started, and no others, finished, in plan order. */
module OwnInstance {
  import opened Types
  import opened NodeSteps
  import opened Protocol
  import opened PlanShape
  import opened NodeHistory

  // ---------------------------------------------------------------- the ledger of finished operations

  function OpAt(s: State, x: Name): Option<NodeOp> { if x in s.members then NodeOf(s, x).op else None }

  predicate OpKnown(x: Name, o: NodeOp, doneAt: map<nat, Finish>, next: nat) {
    && o.id < next
    && (o.phase.Done? <==> o.id in doneAt)
    && (o.id in doneAt ==> doneAt[o.id].slot == Slot(x, o.job))
  }

  predicate Clash(o: Option<NodeOp>, p: Option<NodeOp>) { o.Some? && p.Some? && o.value.id == p.value.id }

  ghost predicate Ledger(s: State) {
    && (forall x :: OpAt(s, x).Some? ==> OpKnown(x, OpAt(s, x).value, s.doneAt, s.next))
    && (forall x, y :: Clash(OpAt(s, x), OpAt(s, y)) ==> x == y)
    && (forall id :: id in s.doneAt ==> id < s.doneAt[id].when <= s.next && Accomplished(s.doneAt[id].slot.job, id, s.doneAt[id].history))
  }

  predicate Extends(d: map<nat, Finish>, e: map<nat, Finish>) {
    forall id :: id in d ==> id in e && e[id] == d[id]
  }

  /** The same operation, not reopened if it was finished. */
  predicate Advances(o: Option<NodeOp>, p: Option<NodeOp>) {
    || p == o
    || (o.Some? && p.Some? && !Complete(o.value.phase) && p.value == o.value.(phase := p.value.phase))
  }

  lemma PassAdvances(n: Node, m: Node, pass: Pass, busy: bool, target: nat)
    requires NodeMove(n, m, pass, busy, target)
    ensures Advances(n.op, m.op)
  {
    PassFacts(n, m, pass, busy, target);
    hide NodeMove;
  }

  /** What a pass touches: its own node, and the ledger. */
  lemma PassFrame(s: State, a: Action, t: State)
    requires Step(s, a, t) && a.NodePass?
    ensures a.name in s.members && a.name in t.members && t.members == s.members[a.name := t.members[a.name]]
    ensures NodeMove(NodeOf(s, a.name), NodeOf(t, a.name), a.pass, OthersActive(s, a.name), s.target)
    ensures t.next == s.next
  {
    hide NodeMove, Record, MarkDone, OthersActive;
  }

  lemma PassOps(s: State, a: Action, t: State)
    requires Step(s, a, t) && a.NodePass?
    ensures forall y :: y != a.name ==> OpAt(t, y) == OpAt(s, y)
    ensures Advances(OpAt(s, a.name), OpAt(t, a.name)) && t.next == s.next
  {
    PassFrame(s, a, t);
    hide Step, NodeMove, Advances, OthersActive;
    PassAdvances(NodeOf(s, a.name), NodeOf(t, a.name), a.pass, OthersActive(s, a.name), s.target);
  }

  /** What a pass adds to the ledger. */
  predicate Entered(d: map<nat, Finish>, e: map<nat, Finish>, x: Name, o: Option<NodeOp>, p: Option<NodeOp>, now: nat, history: Trail) {
    e == if p != o && p.Some? && p.value.phase.Done? then d[p.value.id := Finish(Slot(x, p.value.job), now, history)] else d
  }

  /** An operation that reaches Done goes into the ledger with all that it has done. */
  lemma PassEnters(s: State, a: Action, t: State) returns (history: Trail)
    requires AcceptHistory(s) && Step(s, a, t) && a.NodePass?
    ensures Entered(s.doneAt, t.doneAt, a.name, OpAt(s, a.name), OpAt(t, a.name), s.next, history)
    ensures var p := OpAt(t, a.name); p.Some? && p.value.phase.Done? ==> Accomplished(p.value.job, p.value.id, history)
  {
    var x := a.name;
    assert PassStep(s, t, x, a.pass);
    AcceptStep(s, a, t);
    hide Step, NodeMove, Record, Accomplished;
    history := TrailOf(t, x);
    assert AcceptInv(NodeOf(t, x), history);
    hide AcceptHistory;
  }

  lemma LedgerAdvances(s: State, t: State, x: Name, history: Trail)
    requires Ledger(s) && (forall y :: y != x ==> OpAt(t, y) == OpAt(s, y)) && t.next == s.next
    requires Advances(OpAt(s, x), OpAt(t, x)) && Entered(s.doneAt, t.doneAt, x, OpAt(s, x), OpAt(t, x), s.next, history)
    requires var p := OpAt(t, x); p.Some? && p.value.phase.Done? ==> Accomplished(p.value.job, p.value.id, history)
    ensures Ledger(t) && Extends(s.doneAt, t.doneAt)
  {
    hide OpAt, Accomplished;
  }

  lemma PassKeepsLedger(s: State, a: Action, t: State)
    requires Ledger(s) && AcceptHistory(s) && Step(s, a, t) && a.NodePass?
    ensures Ledger(t) && Extends(s.doneAt, t.doneAt)
  {
    hide Step, OpAt, AcceptHistory, Ledger, Entered, Advances, Extends, Accomplished;
    PassOps(s, a, t);
    var history := PassEnters(s, a, t);
    LedgerAdvances(s, t, a.name, history);
  }

  lemma LandingOps(s: State, a: Action, t: State) returns (x: Name)
    requires Step(s, a, t) && Lands(a)
    ensures forall y :: y != x ==> OpAt(t, y) == OpAt(s, y)
    ensures OpAt(t, x).Some? && OpAt(t, x).value.phase.Pending? && OpAt(t, x).value.id == s.next
    ensures t.next == s.next + 1 && t.doneAt == s.doneAt
  {
    hide NodeMove, Current;
    x := if a.StartEntry? then s.op.value.plan[a.i].slot.node else a.name;
  }

  lemma LandingKeepsLedger(s: State, a: Action, t: State)
    requires Ledger(s) && Step(s, a, t) && Lands(a)
    ensures Ledger(t) && Extends(s.doneAt, t.doneAt)
  {
    hide Step, OpAt;
    var x := LandingOps(s, a, t);
  }

  /** Steps that touch no operation: users, the environment, comings and goings. */
  lemma OtherOps(s: State, a: Action, t: State)
    requires Step(s, a, t) && !Lands(a) && !a.NodePass?
    ensures forall y :: OpAt(t, y) == OpAt(s, y) || OpAt(t, y).None?
    ensures t.next == s.next && t.doneAt == s.doneAt
  {
    StepCounters(s, a, t);
    hide Step, NodeMove, AtEntry;
    forall y ensures OpAt(t, y) == OpAt(s, y) || OpAt(t, y).None? { StepFate(s, a, t, y); }
  }

  lemma StepKeepsLedger(s: State, a: Action, t: State)
    requires Ledger(s) && AcceptHistory(s) && Step(s, a, t)
    ensures Ledger(t) && Extends(s.doneAt, t.doneAt)
  {
    hide Step, OpAt, AcceptHistory;
    if a.NodePass? { PassKeepsLedger(s, a, t); }
    else if Lands(a) { LandingKeepsLedger(s, a, t); }
    else { OtherOps(s, a, t); }
  }

  // ---------------------------------------------------------------- entries and their own operations

  /** The operation this entry started reached Done, having done what that stands for. */
  predicate Settled(s: State, e: Entry) {
    && e.tag in s.doneAt && s.doneAt[e.tag].slot == e.slot
    && Accomplished(e.slot.job, e.tag, s.doneAt[e.tag].history)
  }

  function When(s: State, id: nat): nat { if id in s.doneAt then s.doneAt[id].when else 0 }

  /** The operation on the slot's node, if there is one, is the one with this id. */
  predicate Runs(s: State, slot: Slot, id: nat) {
    var o := OpAt(s, slot.node);
    o.Some? ==> o.value.id == id && o.value.job == slot.job
  }

  predicate DoneAreSettled(s: State, plan: seq<Entry>) {
    forall j :: 0 <= j < |plan| && plan[j].phase.Done? ==> Settled(s, plan[j])
  }

  /** Everything before a started entry was finished before that entry's operation even got its id. */
  predicate InOrder(s: State, plan: seq<Entry>) {
    forall j, k :: 0 <= j < k < |plan| && plan[j].phase.Done? && !plan[k].phase.Pending? ==>
      When(s, plan[j].tag) <= plan[k].tag
  }

  predicate OpenRuns(s: State, plan: seq<Entry>) {
    forall j :: 0 <= j < |plan| && plan[j].phase.Applying? ==> Runs(s, plan[j].slot, plan[j].tag)
  }

  predicate StartingRuns(s: State, plan: seq<Entry>) {
    s.flight.Starting? ==>
      && s.flight.entry < |plan| && Runs(s, plan[s.flight.entry].slot, s.flight.id)
      && forall j :: 0 <= j < s.flight.entry && plan[j].phase.Done? ==> When(s, plan[j].tag) <= s.flight.id
  }

  predicate Owns(s: State) {
    s.op.Some? ==>
      && DoneAreSettled(s, s.op.value.plan) && InOrder(s, s.op.value.plan) && StartingRuns(s, s.op.value.plan)
      && (s.op.value.phase.InProgress? ==> OpenRuns(s, s.op.value.plan))
  }

  /** The runner is waiting for an operation on node `x`. */
  predicate Watches(s: State, x: Name) {
    && s.op.Some? && s.op.value.phase.InProgress?
    && (|| (s.flight.Starting? && s.flight.entry < |s.op.value.plan| && s.op.value.plan[s.flight.entry].slot.node == x)
        || exists j :: 0 <= j < |s.op.value.plan| && s.op.value.plan[j].phase.Applying? && s.op.value.plan[j].slot.node == x)
  }

  /** Anything may happen anywhere, but nobody else starts an operation on the one node the runner is waiting for. */
  predicate Spared(s: State, a: Action) { a.NodeRequest? || a.Cleanup? ==> !Watches(s, a.name) }

  ghost predicate OwnInv(s: State) { ShapeInv(s) && Ledger(s) && AcceptHistory(s) && Owns(s) }

  // ---------------------------------------------------------------- what a step keeps of them

  lemma PlanStaysSettled(s: State, t: State, plan: seq<Entry>)
    requires Extends(s.doneAt, t.doneAt) && DoneAreSettled(s, plan) && InOrder(s, plan)
    ensures DoneAreSettled(t, plan) && InOrder(t, plan)
    ensures forall j :: 0 <= j < |plan| && plan[j].phase.Done? ==> When(t, plan[j].tag) == When(s, plan[j].tag)
  {
    assert forall j :: 0 <= j < |plan| && plan[j].phase.Done? ==> Settled(s, plan[j]);
  }

  /** Whoever starts an operation elsewhere, whatever comes and goes, leaves this one running. */
  lemma RunningStays(s: State, a: Action, t: State, slot: Slot, id: nat)
    requires Step(s, a, t) && Runs(s, slot, id)
    requires a.NodeRequest? || a.Cleanup? ==> a.name != slot.node
    requires a.StartEntry? ==> Running(s, a.i) && a.i < |s.op.value.plan| && s.op.value.plan[a.i].slot.node != slot.node
    ensures Runs(t, slot, id)
  {
    if a.NodePass? {
      hide Step;
      PassOps(s, a, t);
    } else {
      hide Step, NodeMove, Running;
      StepFate(s, a, t, slot.node);
    }
  }

  lemma ElsewhereKeepsOwns(s: State, a: Action, t: State)
    requires OwnInv(s) && Step(s, a, t) && Elsewhere(a) && Spared(s, a)
    ensures Owns(t)
  {
    hide Step, AcceptHistory, ShapeInv, Runs, Settled, Shaped;
    ElsewhereKeepsPlan(s, a, t);
    StepKeepsLedger(s, a, t);
    hide Ledger, Extends, When;
    if s.op.Some? {
      var plan := s.op.value.plan;
      PlanStaysSettled(s, t, plan);
      if s.op.value.phase.InProgress? {
        forall j | 0 <= j < |plan| && plan[j].phase.Applying? ensures Runs(t, plan[j].slot, plan[j].tag) {
          RunningStays(s, a, t, plan[j].slot, plan[j].tag);
        }
      }
      if s.flight.Starting? {
        assert s.op.value.phase.InProgress? by { assert ShapeInv(s); StartingMeansInProgress(s); }
        RunningStays(s, a, t, plan[s.flight.entry].slot, s.flight.id);
      }
    }
  }

  lemma StartingMeansInProgress(s: State)
    requires ShapeInv(s) && s.flight.Starting?
    ensures s.op.Some? && s.op.value.phase.InProgress?
  {
  }

  lemma NoneIsApplying(s: State, a: Action, t: State)
    requires ShapeInv(s) && Step(s, a, t) && a.StartEntry?
    ensures s.op.Some? && forall j :: 0 <= j < |s.op.value.plan| ==> !s.op.value.plan[j].phase.Applying?
  {
    StartsInOrder(s, a, t, 0);
    hide Step;
    forall j | 0 <= j < |s.op.value.plan| ensures !s.op.value.plan[j].phase.Applying? { StartsInOrder(s, a, t, j); }
  }

  lemma StartedOwns(s: State, t: State, i: nat)
    requires Owns(s) && Ledger(s) && s.op.Some? && t.op == s.op && t.doneAt == s.doneAt
    requires t.flight == Starting(i, s.next) && i < |s.op.value.plan| && Runs(t, s.op.value.plan[i].slot, s.next)
    requires forall j :: 0 <= j < |s.op.value.plan| ==> !s.op.value.plan[j].phase.Applying?
    ensures Owns(t)
  {
    hide Runs;
  }

  lemma StartKeepsOwns(s: State, a: Action, t: State)
    requires OwnInv(s) && Step(s, a, t) && a.StartEntry?
    ensures Owns(t)
  {
    StartFacts(s, a, t);
    NoneIsApplying(s, a, t);
    hide Step, AcceptHistory, ShapeInv, Current, Owns, Ledger;
    StartedOwns(s, t, a.i);
  }

  lemma ConfirmKeepsOwns(s: State, a: Action, t: State)
    requires OwnInv(s) && Step(s, a, t) && a.ConfirmStart?
    ensures Owns(t)
  {
    hide AcceptHistory, Ledger;
    var plan, i := s.op.value.plan, s.flight.entry;
    assert forall j :: 0 <= j < |plan| && plan[j].phase.Applying? ==> j == i;
  }

  /** What the runner copies from its node is the end of the entry's own operation. */
  lemma ObservedIsOwn(s: State, i: nat)
    requires Ledger(s) && AtEntry(s, i, Applying)
    requires Runs(s, s.op.value.plan[i].slot, s.op.value.plan[i].tag)
    requires OpAt(s, s.op.value.plan[i].slot.node).Some? && OpAt(s, s.op.value.plan[i].slot.node).value.phase.Done?
    ensures Settled(s, s.op.value.plan[i].(phase := Done))
  {
    hide Current;
    var e := s.op.value.plan[i];
    assert OpKnown(e.slot.node, OpAt(s, e.slot.node).value, s.doneAt, s.next);
  }

  lemma SameViews(s: State, t: State)
    requires t.members == s.members && t.doneAt == s.doneAt
    ensures forall e :: Settled(t, e) == Settled(s, e)
    ensures forall id :: When(t, id) == When(s, id)
    ensures forall slot, id :: Runs(t, slot, id) == Runs(s, slot, id)
  {
  }

  lemma ObservedOwns(s: State, t: State, i: nat, e: Entry)
    requires Owns(s) && s.op.Some? && s.op.value.phase.InProgress? && i < |s.op.value.plan| && t.flight.NoFlight?
    requires t.members == s.members && t.doneAt == s.doneAt && t.op == Some(s.op.value.(plan := s.op.value.plan[i := e]))
    requires s.op.value.plan[i].phase.Applying? && e == s.op.value.plan[i].(phase := e.phase) && Complete(e.phase)
    requires forall j :: i < j < |s.op.value.plan| ==> s.op.value.plan[j].phase.Pending?
    requires e.phase.Done? ==> Settled(s, e)
    ensures Owns(t)
  {
    SameViews(s, t);
    hide Settled, When, Runs;
  }

  lemma ObserveKeepsOwns(s: State, a: Action, t: State)
    requires OwnInv(s) && Step(s, a, t) && a.ObserveEntry?
    ensures Owns(t)
  {
    ObserveFacts(s, a, t);
    hide Step, AcceptHistory;
    var plan, i := s.op.value.plan, a.i;
    CurrentIsFirstOpen(plan, i);
    assert forall j :: i < j < |plan| ==> plan[j].phase.Pending?;
    var e := plan[i].(phase := PhaseOf(NodeOf(s, plan[i].slot.node)));
    if e.phase.Done? { ObservedIsOwn(s, i); }
    hide Ledger, ShapeInv, Settled, Owns;
    ObservedOwns(s, t, i, e);
  }

  /** The other steps of the cluster controller keep the plan, drop it, or write a new one. */
  lemma PlanKeptDroppedOrNew(s: State, a: Action, t: State)
    requires Step(s, a, t) && ClusterOnly(a) && !a.ConfirmStart? && !a.ObserveEntry?
    ensures !t.flight.Starting?
    ensures t.op.Some? ==>
              || (forall j :: 0 <= j < |t.op.value.plan| ==> t.op.value.plan[j].phase.Pending?)
              || (s.op.Some? && t.op.value.plan == s.op.value.plan && (t.op.value.phase.InProgress? ==> s.op.value.phase.InProgress?))
  {
    hide Lists, Refused, Slots, Current;
  }

  lemma SamePlanOwns(s: State, t: State)
    requires Owns(s) && s.op.Some? && t.op.Some? && t.op.value.plan == s.op.value.plan && !t.flight.Starting?
    requires t.members == s.members && t.doneAt == s.doneAt && (t.op.value.phase.InProgress? ==> s.op.value.phase.InProgress?)
    ensures Owns(t)
  {
    SameViews(s, t);
    hide Settled, When, Runs;
  }

  lemma FreshPlanOwns(s: State)
    requires s.op.Some? && !s.flight.Starting? && forall j :: 0 <= j < |s.op.value.plan| ==> s.op.value.plan[j].phase.Pending?
    ensures Owns(s)
  {
    hide Settled, When, Runs;
  }

  lemma ClusterKeepsOwns(s: State, a: Action, t: State)
    requires OwnInv(s) && Step(s, a, t) && ClusterOnly(a) && !a.ConfirmStart? && !a.ObserveEntry?
    ensures Owns(t)
  {
    PlanKeptDroppedOrNew(s, a, t);
    ClusterStepKeepsMembers(s, a, t);
    hide Step, AcceptHistory, Ledger, ShapeInv;
    if t.op.Some? {
      hide Owns;
      if forall j :: 0 <= j < |t.op.value.plan| ==> t.op.value.plan[j].phase.Pending? { FreshPlanOwns(t); } else { SamePlanOwns(s, t); }
    }
  }

  lemma StepKeepsOwnInv(s: State, a: Action, t: State)
    requires OwnInv(s) && Step(s, a, t) && Spared(s, a)
    ensures OwnInv(t)
  {
    hide Step, Owns, ShapeInv, Spared, AcceptHistory;
    StepKeepsLedger(s, a, t);
    hide Ledger;
    StepKeepsShape(s, a, t);
    AcceptStep(s, a, t);
    if Elsewhere(a) { ElsewhereKeepsOwns(s, a, t); }
    else if a.StartEntry? { StartKeepsOwns(s, a, t); }
    else if a.ConfirmStart? { ConfirmKeepsOwns(s, a, t); }
    else if a.ObserveEntry? { ObserveKeepsOwns(s, a, t); }
    else { ClusterKeepsOwns(s, a, t); }
  }

  // ---------------------------------------------------------------- runs

  ghost predicate NothingPlanned(s: State) {
    s.op.None? && s.flight.NoFlight? && Ledger(s) && AcceptHistory(s)
  }

  lemma {:induction false} OwnOverRuns(states: seq<State>, actions: seq<Action>, k: nat)
    requires IsRun(states, actions) && k < |states| && NothingPlanned(states[0])
    requires forall i :: 0 <= i < |actions| ==> Spared(states[i], actions[i])
    ensures OwnInv(states[k])
  {
    hide Step, Spared, Ledger, AcceptHistory;
    if k > 0 {
      hide OwnInv;
      OwnOverRuns(states, actions, k - 1);
      StepKeepsOwnInv(states[k - 1], actions[k - 1], states[k]);
    }
  }

  /**
   * Once a cluster operation has reached Postflight, every entry of its plan stands for an operation
   * that the entry itself started and that reached Done, each of them finished before the next one
   * was created; so a finished rolling apply has brought every planned node in sync.
   */
  lemma PostflightMeansOwnDone(states: seq<State>, actions: seq<Action>, k: nat, i: nat, j: nat)
    requires IsRun(states, actions) && k < |states| && NothingPlanned(states[0])
    requires forall i :: 0 <= i < |actions| ==> Spared(states[i], actions[i])
    requires states[k].op.Some? && (states[k].op.value.phase.Postflight? || states[k].op.value.phase.ClusterDone?)
    requires i < |states[k].op.value.plan|
    ensures var plan := states[k].op.value.plan;
            && Matches(plan, states[k].op.value.planned)
            && Settled(states[k], plan[i])
            && (i < j < |plan| ==> plan[i].tag < When(states[k], plan[i].tag) <= plan[j].tag)
  {
    hide Step, Spared, AcceptHistory;
    OwnOverRuns(states, actions, k);
  }

  // ---------------------------------------------------------------- why the watched node must be spared

  /**
   * The runner cannot tell operations apart. Whatever entry it is waiting for, one request on that
   * node for an OS upgrade that turns out to be unnecessary gets the entry marked Done, although
   * the entry's own operation never finishes.
   */
  lemma BorrowedDone(s: State, i: nat, job: Job) returns (states: seq<State>, actions: seq<Action>)
    requires Ledger(s) && AtEntry(s, i, Applying) && s.op.value.plan[i].tag !in s.doneAt
    requires s.op.value.plan[i].tag < s.next && job.kind.Upgrade?
    requires Eligible(NodeOf(s, s.op.value.plan[i].slot.node)) && !OthersActive(s, s.op.value.plan[i].slot.node)
    ensures IsRun(states, actions) && states[0] == s && |actions| == 3
    ensures states[3].op.Some? && i < |states[3].op.value.plan|
    ensures states[3].op.value.plan[i] == s.op.value.plan[i].(phase := Done)
    ensures !Settled(states[3], states[3].op.value.plan[i])
  {
    var e := s.op.value.plan[i];
    var x := e.slot.node;
    var t := WithMember(s, x, s.members[x].(node := NodeOf(s, x).(op := Some(NodeOp(job, Pending, s.next))))).(next := s.next + 1);
    assert Step(s, NodeRequest(x, job), t);
    SameOthers(s, t, x);
    var pass, u := UnneededUpgrade(t, x);
    hide Current, NodeMove, Step, Record;
    var v := WithEntry(u, i, e.(phase := Done));
    assert Step(u, ObserveEntry(i), v) by { ObserveDone(u, i); }
    states := [s, t, u, v];
    actions := [NodeRequest(x, job), NodePass(x, pass), ObserveEntry(i)];
  }

  lemma ObserveDone(s: State, i: nat)
    requires AtEntry(s, i, Applying) && OpAt(s, s.op.value.plan[i].slot.node).Some?
    requires OpAt(s, s.op.value.plan[i].slot.node).value.phase.Done?
    ensures Step(s, ObserveEntry(i), WithEntry(s, i, s.op.value.plan[i].(phase := Done)))
  {
  }

  /** A pass that finds the machine on the right release already ends the upgrade at once. */
  lemma UnneededUpgrade(s: State, x: Name) returns (pass: Pass, t: State)
    requires x in s.members && Eligible(NodeOf(s, x)) && !OthersActive(s, x)
    requires NodeOf(s, x).op.Some? && KindOf(NodeOf(s, x)).Upgrade? && PhaseOf(NodeOf(s, x)).Pending?
    ensures Step(s, NodePass(x, pass), t)
    ensures t == s.(members := t.members, doneAt := t.doneAt) && x in t.members
    ensures NodeOf(t, x).op == Some(NodeOf(s, x).op.value.(phase := Done))
    ensures forall id :: id in t.doneAt && id !in s.doneAt ==> id == IdOf(NodeOf(s, x))
  {
    var n := NodeOf(s, x);
    var seen := n.(bootID := n.boot, ready := Yes, configInSync := No, k8sInSync := FromBool(UpToDate(n, s.target)));
    var m := seen.(op := Some(n.op.value.(phase := Done)));
    pass := Start(seen, Skipped);
    assert NodeMove(n, m, pass, false, s.target);
    hide NodeMove, Record;
    var trail := Record(TrailOf(s, x), n, pass);
    t := WithMember(s, x, Member(m, trail, s.members[x].sawBootstrap)).(doneAt := MarkDone(s.doneAt, x, n, m, trail, s.next));
    assert PassStep(s, t, x, pass);
  }
}
