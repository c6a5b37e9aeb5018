/**
 * The two controllers over the object store, one step per write.
 *
 * A cluster reconcile that writes twice is two steps with a `Flight` in between, so node passes,
 * requests and a crash may all come between them. Runs are sequences of such steps.
 */
module Protocol {
  import opened Types
  import opened NodeSteps

  type Name = string

  datatype ClusterKind = RollingReboot | RollingApply | KubernetesUpgrade | ClusterBootstrap
  datatype ClusterPhase = ClusterPending | InProgress | Postflight | ClusterDone | ClusterFailed

  /** What a plan entry asks for. */
  datatype Slot = Slot(node: Name, job: Job)

  /** A plan entry. `tag` is the id of the node operation it started, kept for history only. */
  datatype Entry = Entry(slot: Slot, phase: Phase, tag: nat)

  /** `planned` is the plan as first written, kept for history only. */
  datatype ClusterOp = ClusterOp(kind: ClusterKind, phase: ClusterPhase, plan: seq<Entry>, planned: seq<Slot>)

  /** The write that a running cluster reconcile still owes. A crash forgets it. */
  datatype Flight = NoFlight | Starting(entry: nat, id: nat) | Clearing

  /** Operation `slot` reached Done when `when` ids had been handed out, its node having this history. */
  datatype Finish = Finish(slot: Slot, when: nat, history: Trail)

  datatype Call = Call(kind: OpKind, id: nat, unsafe: bool)

  /** History of a node, read by no decision. */
  datatype Trail = Trail(
    drained: set<nat>,              // operations that had a full drain pass
    applyDrained: set<nat>,         // those that had it in ApplyDrain
    calls: set<Call>,
    skipped: set<nat>,
    accepted: set<nat>,
    rebootedReady: set<nat>,        // Applies whose configuration rebooted a machine that Kubernetes showed as ready
    verified: set<nat>,             // reboots, resets and component upgrades that passed their last check
    upgradeVerified: set<nat>,
    applyVerified: set<nat>,
    startBoot: map<nat, nat>,       // boot of the machine at the last Pending pass
    startCordon: map<nat, bool>,    // cordon bit of the machine at the last Pending pass
    startMarked: map<nat, bool>)    // KubernetesUnschedulable as that pass left it

  /** `sawBootstrap`: the cluster controller has started a Bootstrap here, also kept for history only. */
  datatype Member = Member(node: Node, trail: Trail, sawBootstrap: bool)

  datatype State = State(
    op: Option<ClusterOp>,
    request: Option<ClusterKind>,
    flight: Flight,
    members: map<Name, Member>,
    next: nat,                      // ids below are taken
    doneAt: map<nat, Finish>,       // the operations that reached Done
    target: nat)                    // spec.kubernetesVersion

  datatype Action =
    | UserRequest(kind: ClusterKind)
    | Intake | ClearRequest | Crash
    | AutoBootstrap | AutoWindow
    | Plan(cps: seq<Name>, ws: seq<Name>)
    | StartEntry(i: nat) | ConfirmStart
    | ObserveEntry(i: nat) | FailEntry(i: nat) | TimeOutEntry(i: nat) | LoseEntry(i: nat)
    | FinishPlan | FinishOp
    | NodePass(name: Name, pass: Pass)
    | NodeRequest(name: Name, job: Job)
    | Cleanup(name: Name)           // a deleted node gets its Reset
    | Delete(name: Name)
    | Reboots(name: Name)           // the machine reboots, for whatever reason
    | CordonChanges(name: Name, cordoned: bool)
    | ConfigChanges(name: Name, holds: Option<Versions>)   // someone edits patches, or the machine
    | Appears(name: Name, role: Role)
    | Vanishes(name: Name)

  // ---------------------------------------------------------------- nodes

  function NodeOf(s: State, x: Name): Node
    requires x in s.members
  {
    s.members[x].node
  }

  function TrailOf(s: State, x: Name): Trail
    requires x in s.members
  {
    s.members[x].trail
  }

  predicate Eligible(n: Node) { n.provisioned == Yes }

  /** `areOtherOperationsInProgress`: some node other than `x` is in an active phase. */
  ghost predicate OthersActive(s: State, x: Name) {
    exists y :: y in s.members && y != x && NodeOf(s, y).op.Some? && Active(PhaseOf(NodeOf(s, y)))
  }

  function RecordDeed(t: Trail, o: NodeOp, d: Deed): Trail {
    match d
    case Nothing => t
    case Passed(_) =>
      t.(drained := t.drained + {o.id},
         applyDrained := if o.phase.ApplyDrain? then t.applyDrained + {o.id} else t.applyDrained)
    case Called => t.(calls := t.calls + {Call(o.job.kind, o.id, o.job.unsafe)})
    case Skipped => t.(skipped := t.skipped + {o.id})
    case Accepted(reboots, ready) =>
      t.(accepted := t.accepted + {o.id},
         rebootedReady := if reboots && ready && o.job.kind.Apply? then t.rebootedReady + {o.id} else t.rebootedReady)
    case Verified => t.(verified := t.verified + {o.id})
    case UpgradeVerified => t.(upgradeVerified := t.upgradeVerified + {o.id})
    case ApplyVerified => t.(applyVerified := t.applyVerified + {o.id})
  }

  function RecordStart(t: Trail, n: Node, seen: Node): Trail
    requires n.op.Some?
  {
    t.(startBoot := t.startBoot[IdOf(n) := n.boot],
       startCordon := t.startCordon[IdOf(n) := n.cordoned],
       startMarked := t.startMarked[IdOf(n) := seen.unschedulable == Yes])
  }

  function Record(t: Trail, n: Node, pass: Pass): Trail {
    if n.op.None? then t else
      match pass
      case Upkeep => t
      case Start(seen, d) => RecordDeed(RecordStart(t, n, seen), n.op.value, d)
      case Run(d) => RecordDeed(t, n.op.value, d)
  }

  /** `t` is the history of the node with this pass. */
  function MarkDone(doneAt: map<nat, Finish>, x: Name, n: Node, m: Node, t: Trail, now: nat): map<nat, Finish> {
    if m.op.Some? && PhaseOf(m).Done? && n.op != m.op then
      doneAt[IdOf(m) := Finish(Slot(x, m.op.value.job), now, t)]
    else
      doneAt
  }

  const FreshTrail := Trail({}, {}, {}, {}, {}, {}, {}, {}, {}, map[], map[], map[])

  function FreshNode(role: Role): Node {
    Node(role, None, Unset, Unset, Unset, Unset, Unset, Unset, Unset, Unset,
         false, false, 0, Versions(0, 0, 0, 0), 0, false, None)
  }

  // ---------------------------------------------------------------- lists and plans

  predicate Less(a: Name, b: Name)
    decreases |a|
  {
    if b == "" then false
    else if a == "" then true
    else a[0] < b[0] || (a[0] == b[0] && Less(a[1..], b[1..]))
  }

  predicate Ascending(list: seq<Name>) {
    forall i, j :: 0 <= i < j < |list| ==> Less(list[i], list[j])
  }

  /** The provisioned nodes of one role, by name. */
  predicate Lists(list: seq<Name>, s: State, role: Role) {
    && Ascending(list)
    && (forall x :: x in list ==> x in s.members)
    && (forall x :: x in s.members ==> (x in list <==> Eligible(NodeOf(s, x)) && NodeOf(s, x).role == role))
  }

  function PlainJob(kind: OpKind, c: Component): Job { Job(kind, c, false, false, false, false) }

  function Stage(list: seq<Name>, kind: OpKind, c: Component): (r: seq<Slot>)
    ensures |r| == |list|
    ensures forall i :: 0 <= i < |r| ==> r[i] == Slot(list[i], PlainJob(kind, c))
  {
    seq(|list|, i requires 0 <= i < |list| => Slot(list[i], PlainJob(kind, c)))
  }

  /** apiserver, controller-manager and scheduler on the control planes, then the kubelet everywhere. */
  function UpgradeSlots(cps: seq<Name>, ws: seq<Name>): seq<Slot> {
    Stage(cps, ComponentUpgrade, APIServer) + Stage(cps, ComponentUpgrade, ControllerManager) +
    Stage(cps, ComponentUpgrade, Scheduler) + Stage(cps + ws, ComponentUpgrade, Kubelet)
  }

  function Slots(kind: ClusterKind, cps: seq<Name>, ws: seq<Name>): seq<Slot> {
    match kind
    case RollingReboot => Stage(cps + ws, Reboot, NoComponent)
    case RollingApply => Stage(cps + ws, Apply, NoComponent)
    case KubernetesUpgrade => UpgradeSlots(cps, ws)
    case ClusterBootstrap => Stage(if cps == [] then [] else [cps[0]], Bootstrap, NoComponent)
  }

  function NewPlan(slots: seq<Slot>): (r: seq<Entry>)
    ensures |r| == |slots|
    ensures forall i :: 0 <= i < |r| ==> r[i] == Entry(slots[i], Pending, 0)
  {
    seq(|slots|, i requires 0 <= i < |slots| => Entry(slots[i], Pending, 0))
  }

  predicate Conflict(s: State, list: seq<Name>)
    requires forall x :: x in list ==> x in s.members
  {
    exists x :: x in list && !Idle(NodeOf(s, x))
  }

  /** Nodes a rolling apply or an upgrade refuses to touch. */
  predicate Unfit(n: Node) { n.ready != Yes || n.drift == Yes }

  predicate UnfitForBootstrap(n: Node) {
    n.ready != Yes || (n.configInSync == No && n.needsInitialUpdate != Yes)
  }

  /** The checks made before a plan is written; one failed check refuses the whole plan. */
  predicate Refused(s: State, kind: ClusterKind, cps: seq<Name>, ws: seq<Name>)
    requires forall x :: x in cps + ws ==> x in s.members
  {
    match kind
    case RollingReboot => Conflict(s, cps + ws)
    case RollingApply => Conflict(s, cps + ws) || exists x :: x in cps + ws && Unfit(NodeOf(s, x))
    case KubernetesUpgrade => Conflict(s, cps + ws) || exists x :: x in cps + ws && Unfit(NodeOf(s, x))
    case ClusterBootstrap =>
      cps == [] || Conflict(s, cps) || exists x :: x in cps && UnfitForBootstrap(NodeOf(s, x))
  }

  /** `i` is the entry the runner works on: the first one that is not Done, or the length of the plan. */
  predicate Current(plan: seq<Entry>, i: nat) {
    && i <= |plan|
    && (forall j :: 0 <= j < i ==> plan[j].phase.Done?)
    && (i < |plan| ==> !plan[i].phase.Done?)
  }

  function FirstOpen(plan: seq<Entry>): (i: nat)
    ensures Current(plan, i)
  {
    if plan == [] || !plan[0].phase.Done? then 0 else 1 + FirstOpen(plan[1..])
  }

  lemma CurrentIsFirstOpen(plan: seq<Entry>, i: nat)
    requires Current(plan, i)
    ensures i == FirstOpen(plan)
  {
    var k := FirstOpen(plan);
    assert forall j :: 0 <= j < |plan| && j < k ==> plan[j].phase.Done?;
  }

  // ---------------------------------------------------------------- steps

  predicate Rested(s: State) { s.op.None? || s.op.value.phase.ClusterDone? }

  predicate Running(s: State, i: nat) {
    && s.flight.NoFlight? && s.op.Some? && s.op.value.phase.InProgress? && Current(s.op.value.plan, i)
  }

  /** The runner is at entry `i`, which is in phase `p`, and its node exists. */
  predicate AtEntry(s: State, i: nat, p: Phase) {
    && Running(s, i) && i < |s.op.value.plan| && s.op.value.plan[i].phase == p
    && s.op.value.plan[i].slot.node in s.members
  }

  function NewOp(kind: ClusterKind): Option<ClusterOp> { Some(ClusterOp(kind, ClusterPending, [], [])) }

  function WithClusterPhase(s: State, p: ClusterPhase): State
    requires s.op.Some?
  {
    s.(op := Some(s.op.value.(phase := p)))
  }

  function WithEntry(s: State, i: nat, e: Entry): State
    requires s.op.Some? && i < |s.op.value.plan|
  {
    s.(op := Some(s.op.value.(plan := s.op.value.plan[i := e])))
  }

  function WithMember(s: State, x: Name, m: Member): State { s.(members := s.members[x := m]) }

  /** A control plane that lets the automatic bootstrap go ahead. */
  predicate BootstrapReady(n: Node) {
    n.ready == Yes && (n.op.Some? ==> PhaseOf(n).Done? && KindOf(n).Provision?)
  }

  ghost predicate AutoBootstrapStep(s: State, t: State) {
    && s.flight.NoFlight? && s.request.None? && Rested(s)
    && (exists x :: x in s.members && Eligible(NodeOf(s, x)) && NodeOf(s, x).role.Controlplane?)
    && (forall x :: x in s.members && Eligible(NodeOf(s, x)) && NodeOf(s, x).role.Controlplane? ==>
          BootstrapReady(NodeOf(s, x)))
    && t == s.(op := NewOp(ClusterBootstrap))
  }

  ghost predicate SomeOutOfSync(s: State) {
    exists x :: x in s.members && Eligible(NodeOf(s, x)) && NodeOf(s, x).configInSync == No
  }

  ghost predicate SomeNeedsKubernetes(s: State) {
    exists x :: x in s.members && Eligible(NodeOf(s, x)) && NodeOf(s, x).k8sInSync == No
  }

  /** Inside a maintenance window: configuration first, Kubernetes only if all configuration is in sync. */
  ghost predicate AutoWindowStep(s: State, t: State) {
    && s.flight.NoFlight? && s.request.None? && Rested(s)
    && (if SomeOutOfSync(s) then t == s.(op := NewOp(RollingApply))
        else SomeNeedsKubernetes(s) && t == s.(op := NewOp(KubernetesUpgrade)))
  }

  predicate PlanStep(s: State, t: State, cps: seq<Name>, ws: seq<Name>) {
    && s.flight.NoFlight? && s.op.Some? && s.op.value.phase.ClusterPending?
    && Lists(cps, s, Controlplane) && Lists(ws, s, Worker)
    && var k := s.op.value.kind;
       if Refused(s, k, cps, ws) then
         t == s.(op := Some(ClusterOp(k, ClusterFailed, [], [])))
       else
         t == s.(op := Some(ClusterOp(k, InProgress, NewPlan(Slots(k, cps, ws)), Slots(k, cps, ws))))
  }

  predicate StartStep(s: State, t: State, i: nat) {
    && AtEntry(s, i, Pending)
    && var slot := s.op.value.plan[i].slot;
       var was := s.members[slot.node];
       t == WithMember(s, slot.node,
              Member(was.node.(op := Some(NodeOp(slot.job, Pending, s.next))), was.trail,
                     was.sawBootstrap || slot.job.kind.Bootstrap?))
            .(next := s.next + 1, flight := Starting(i, s.next))
  }

  predicate ConfirmStep(s: State, t: State) {
    && s.flight.Starting? && s.op.Some? && s.flight.entry < |s.op.value.plan|
    && t == WithEntry(s, s.flight.entry, s.op.value.plan[s.flight.entry].(phase := Applying, tag := s.flight.id))
            .(flight := NoFlight)
  }

  predicate ObserveStep(s: State, t: State, i: nat) {
    && AtEntry(s, i, Applying)
    && var n := NodeOf(s, s.op.value.plan[i].slot.node);
       && n.op.Some? && Complete(PhaseOf(n))
       && t == WithEntry(s, i, s.op.value.plan[i].(phase := PhaseOf(n)))
  }

  predicate TimeOutStep(s: State, t: State, i: nat) {
    && AtEntry(s, i, Applying)
    && !(NodeOf(s, s.op.value.plan[i].slot.node).op.Some? && Idle(NodeOf(s, s.op.value.plan[i].slot.node)))
    && t == WithClusterPhase(s, ClusterFailed)
  }

  /** The node cannot be read: it is gone, or the read failed. */
  predicate LoseStep(s: State, t: State, i: nat) {
    && Running(s, i) && i < |s.op.value.plan|
    && t == WithClusterPhase(s, ClusterFailed)
  }

  ghost predicate FinishStep(s: State, t: State) {
    && s.flight.NoFlight? && s.op.Some? && s.op.value.phase.Postflight?
    && if s.op.value.kind.KubernetesUpgrade? then
         // the upgrade drops its plan, and fails if no control plane is left to read manifests from
         var some := exists x :: x in s.members && Eligible(NodeOf(s, x)) && NodeOf(s, x).role.Controlplane?;
         t == s.(op := Some(s.op.value.(phase := if some then ClusterDone else ClusterFailed, plan := [])))
       else
         t == WithClusterPhase(s, ClusterDone)
  }

  ghost predicate PassStep(s: State, t: State, x: Name, pass: Pass) {
    && x in s.members && x in t.members
    && NodeMove(NodeOf(s, x), NodeOf(t, x), pass, OthersActive(s, x), s.target)
    && t == WithMember(s, x, Member(NodeOf(t, x), Record(TrailOf(s, x), NodeOf(s, x), pass), s.members[x].sawBootstrap))
            .(doneAt := MarkDone(s.doneAt, x, NodeOf(s, x), NodeOf(t, x), TrailOf(t, x), s.next))
  }

  /** A new operation lands on a node: a user asked for it, or the node was deleted. */
  predicate LandStep(s: State, t: State, x: Name, job: Job) {
    && x in s.members
    && t == WithMember(s, x, s.members[x].(node := NodeOf(s, x).(op := Some(NodeOp(job, Pending, s.next)))))
            .(next := s.next + 1)
  }

  const CleanupJob := Job(Reset, NoComponent, false, false, false, true)

  predicate MachineStep(s: State, t: State, x: Name, boot: nat, cordoned: bool, holds: Option<Versions>) {
    && x in s.members
    && t == WithMember(s, x, s.members[x].(node := NodeOf(s, x).(boot := boot, cordoned := cordoned, holds := holds)))
  }

  ghost predicate Step(s: State, a: Action, t: State) {
    match a
    case UserRequest(kind) => t == s.(request := Some(kind))
    case Intake => s.flight.NoFlight? && s.request.Some? && t == s.(op := NewOp(s.request.value), flight := Clearing)
    case ClearRequest => s.flight.Clearing? && t == s.(request := None, flight := NoFlight)
    case Crash => t == s.(flight := NoFlight)
    case AutoBootstrap => AutoBootstrapStep(s, t)
    case AutoWindow => AutoWindowStep(s, t)
    case Plan(cps, ws) => PlanStep(s, t, cps, ws)
    case StartEntry(i) => StartStep(s, t, i)
    case ConfirmStart => ConfirmStep(s, t)
    case ObserveEntry(i) => ObserveStep(s, t, i)
    case FailEntry(i) => AtEntry(s, i, Failed) && t == WithClusterPhase(s, ClusterFailed)
    case TimeOutEntry(i) => TimeOutStep(s, t, i)
    case LoseEntry(i) => LoseStep(s, t, i)
    case FinishPlan => s.op.Some? && Running(s, |s.op.value.plan|) && t == WithClusterPhase(s, Postflight)
    case FinishOp => FinishStep(s, t)
    case NodePass(x, pass) => PassStep(s, t, x, pass)
    case NodeRequest(x, job) => LandStep(s, t, x, job)
    case Cleanup(x) =>
      && LandStep(s, t, x, CleanupJob)
      && Idle(NodeOf(s, x)) && NodeOf(s, x).deleting && NodeOf(s, x).finalizer && Operable(NodeOf(s, x))
    case Delete(x) => x in s.members && t == WithMember(s, x, s.members[x].(node := NodeOf(s, x).(deleting := true)))
    case Reboots(x) => x in s.members && MachineStep(s, t, x, NodeOf(s, x).boot + 1, NodeOf(s, x).cordoned, NodeOf(s, x).holds)
    case CordonChanges(x, c) => x in s.members && MachineStep(s, t, x, NodeOf(s, x).boot, c, NodeOf(s, x).holds)
    case ConfigChanges(x, h) => x in s.members && MachineStep(s, t, x, NodeOf(s, x).boot, NodeOf(s, x).cordoned, h)
    case Appears(x, role) => x !in s.members && t == WithMember(s, x, Member(FreshNode(role), FreshTrail, false))
    case Vanishes(x) => x in s.members && t == s.(members := s.members - {x})
  }

  // ---------------------------------------------------------------- runs

  ghost predicate IsRun(states: seq<State>, actions: seq<Action>) {
    && |states| == |actions| + 1
    && forall i :: 0 <= i < |actions| ==> Step(states[i], actions[i], states[i + 1])
  }

  /** The plan has the shape Done* (Applying | Failed)? Pending*, its open entry being `i`. */
  predicate Shaped(plan: seq<Entry>, i: nat) {
    && Current(plan, i)
    && (i < |plan| ==> plan[i].phase.Pending? || plan[i].phase.Applying? || plan[i].phase.Failed?)
    && (forall j :: i < j < |plan| ==> plan[j].phase.Pending?)
  }

  // ---------------------------------------------------------------- what a step does to one node

  /** A node gets a new Pending operation: from the runner, from a user, or from its own deletion. */
  predicate Lands(a: Action) { a.StartEntry? || a.NodeRequest? || a.Cleanup? }

  /** The runner starts entry `i`, an entry for node `x` that asks for `job`. */
  predicate Launches(s: State, a: Action, x: Name, job: Job) {
    a.StartEntry? && AtEntry(s, a.i, Pending) && s.op.value.plan[a.i].slot == Slot(x, job)
  }

  ghost predicate Landed(s: State, a: Action, t: State, x: Name)
    requires x in s.members && x in t.members
  {
    var n, m := NodeOf(s, x), NodeOf(t, x);
    && m.op.Some? && PhaseOf(m).Pending? && IdOf(m) == s.next && m == n.(op := m.op)
    && TrailOf(t, x) == TrailOf(s, x)
    && (|| (Launches(s, a, x, m.op.value.job) &&
            t.members[x].sawBootstrap == (s.members[x].sawBootstrap || KindOf(m).Bootstrap?))
        || (a == NodeRequest(x, m.op.value.job) && t.members[x].sawBootstrap == s.members[x].sawBootstrap)
        || (a == Cleanup(x) && m.op.value.job == CleanupJob && t.members[x].sawBootstrap == s.members[x].sawBootstrap))
  }

  /** The environment or an administrator changed the node, but not its operation. */
  predicate Altered(n: Node, m: Node) {
    m == n.(boot := m.boot, cordoned := m.cordoned, deleting := m.deleting, holds := m.holds) && n.boot <= m.boot
  }

  /** Everything a step can do to the record of node `x`. */
  ghost predicate Fate(s: State, a: Action, t: State, x: Name) {
    if x !in t.members then
      x !in s.members || a == Vanishes(x)
    else if x !in s.members then
      a.Appears? && a.name == x && t.members[x] == Member(FreshNode(a.role), FreshTrail, false)
    else
      || t.members[x] == s.members[x]
      || Landed(s, a, t, x)
      || (t.members[x].sawBootstrap == s.members[x].sawBootstrap &&
          (|| (a.NodePass? && a.name == x &&
               NodeMove(NodeOf(s, x), NodeOf(t, x), a.pass, OthersActive(s, x), s.target) &&
               TrailOf(t, x) == Record(TrailOf(s, x), NodeOf(s, x), a.pass))
           || ((a.Delete? || a.Reboots? || a.CordonChanges? || a.ConfigChanges?) && a.name == x &&
               Altered(NodeOf(s, x), NodeOf(t, x)) && TrailOf(t, x) == TrailOf(s, x) &&
               (NodeOf(t, x).cordoned == NodeOf(s, x).cordoned || a == CordonChanges(x, NodeOf(t, x).cordoned)) &&
               (NodeOf(t, x).boot == NodeOf(s, x).boot || a == Reboots(x)) &&
               (NodeOf(t, x).holds == NodeOf(s, x).holds || a == ConfigChanges(x, NodeOf(t, x).holds)))))
  }

  /** Steps of the cluster controller that write only the cluster object. */
  predicate ClusterOnly(a: Action) {
    || a.Intake? || a.ClearRequest? || a.Crash? || a.AutoBootstrap? || a.AutoWindow? || a.Plan?
    || a.ConfirmStart? || a.ObserveEntry? || a.FailEntry? || a.TimeOutEntry? || a.LoseEntry?
    || a.FinishPlan? || a.FinishOp?
  }

  /** Steps of users, of the environment and of the node controller. */
  predicate Elsewhere(a: Action) { !ClusterOnly(a) && !a.StartEntry? }

  lemma ClusterStepKeepsMembers(s: State, a: Action, t: State)
    requires Step(s, a, t) && ClusterOnly(a)
    ensures t.members == s.members && t.next == s.next && t.doneAt == s.doneAt
  {
    hide Lists, Refused, Slots, Current;
  }

  lemma ElsewhereKeepsPlan(s: State, a: Action, t: State)
    requires Step(s, a, t) && Elsewhere(a)
    ensures t.op == s.op && t.flight == s.flight
    ensures t.request == if a.UserRequest? then Some(a.kind) else s.request
  {
    hide NodeMove;
  }

  lemma StepFate(s: State, a: Action, t: State, x: Name)
    requires Step(s, a, t)
    ensures Fate(s, a, t, x)
  {
    hide NodeMove, Less, Lists, Refused, Slots, Current;
    if ClusterOnly(a) {
      hide Step;
      ClusterStepKeepsMembers(s, a, t);
    }
  }

  lemma LandedLands(s: State, a: Action, t: State, x: Name)
    requires x in s.members && x in t.members && Landed(s, a, t, x)
    ensures Lands(a)
  {
    hide AtEntry;
  }

  lemma ClusterStepKeepsTarget(s: State, a: Action, t: State)
    requires Step(s, a, t) && ClusterOnly(a)
    ensures t.target == s.target
  {
    hide Lists, Refused, Slots, Current;
  }

  /** Only the runner's start, a request and a deletion use up an id; only a pass marks one as done. */
  lemma StepCounters(s: State, a: Action, t: State)
    requires Step(s, a, t)
    ensures t.target == s.target
    ensures t.next == if Lands(a) then s.next + 1 else s.next
    ensures !a.NodePass? ==> t.doneAt == s.doneAt
  {
    if ClusterOnly(a) {
      ClusterStepKeepsMembers(s, a, t);
      ClusterStepKeepsTarget(s, a, t);
      hide Step;
    } else {
      hide NodeMove, Current, Record, MarkDone;
    }
  }

  /** Whether another node is active does not depend on `x` itself. */
  lemma SameOthers(s: State, t: State, x: Name)
    requires x in s.members && x in t.members && t.members == s.members[x := t.members[x]]
    ensures OthersActive(t, x) == OthersActive(s, x)
  {
    if OthersActive(s, x) {
      var y :| y in s.members && y != x && NodeOf(s, y).op.Some? && Active(PhaseOf(NodeOf(s, y)));
      assert NodeOf(t, y) == NodeOf(s, y);
    }
    if OthersActive(t, x) {
      var y :| y in t.members && y != x && NodeOf(t, y).op.Some? && Active(PhaseOf(NodeOf(t, y)));
      assert NodeOf(s, y) == NodeOf(t, y);
    }
  }

  // ---------------------------------------------------------------- the runner's steps, in short

  lemma StartFacts(s: State, a: Action, t: State)
    requires Step(s, a, t) && a.StartEntry?
    ensures AtEntry(s, a.i, Pending) && t.op == s.op && t.request == s.request && t.doneAt == s.doneAt
    ensures t.flight == Starting(a.i, s.next)
    ensures var slot := s.op.value.plan[a.i].slot;
            && slot.node in t.members && t.members == s.members[slot.node := t.members[slot.node]]
            && NodeOf(t, slot.node) == NodeOf(s, slot.node).(op := Some(NodeOp(slot.job, Pending, s.next)))
  {
    hide Current;
  }

  lemma ConfirmFacts(s: State, a: Action, t: State)
    requires Step(s, a, t) && a.ConfirmStart?
    ensures s.flight.Starting? && s.op.Some? && s.flight.entry < |s.op.value.plan| && t.flight.NoFlight? && t.request == s.request
    ensures t.members == s.members && t.target == s.target && t.doneAt == s.doneAt
    ensures t.op == Some(s.op.value.(plan := s.op.value.plan[s.flight.entry := s.op.value.plan[s.flight.entry].(phase := Applying, tag := s.flight.id)]))
  {
  }

  lemma ObserveFacts(s: State, a: Action, t: State)
    requires Step(s, a, t) && a.ObserveEntry?
    ensures AtEntry(s, a.i, Applying) && t.flight == s.flight && t.request == s.request
    ensures t.members == s.members && t.target == s.target && t.doneAt == s.doneAt
    ensures var n := NodeOf(s, s.op.value.plan[a.i].slot.node);
            && n.op.Some? && Complete(PhaseOf(n))
            && t.op == Some(s.op.value.(plan := s.op.value.plan[a.i := s.op.value.plan[a.i].(phase := PhaseOf(n))]))
  {
    hide Current;
  }
}
