/** The records the two controllers keep in the object store, and the part of a machine they can observe. */
module Types {

  datatype Option<+T> = None | Some(value: T)

  datatype Role = Controlplane | Worker

  /** A status condition: present and True, present and False, or absent. */
  datatype Condition = Yes | No | Unset

  function FromBool(b: bool): Condition { if b then Yes else No }

  datatype OpKind =
    | Provision | Bootstrap | Apply | Upgrade | ComponentUpgrade | Shutdown | Reboot | Reset

  /** `NoComponent` stands for every name that is not one of the four upgradable components. */
  datatype Component = APIServer | ControllerManager | Scheduler | Kubelet | NoComponent

  datatype Phase =
    | Pending | Draining | Applying | Verifying | Done | Failed
    | ApplyDrain | ApplyVerifying
    | KubeletReboot | VerifyReboot
    | Provisioning | ProvisionVerifying
    | UpgradeDrain | UpgradePreflight | UpgradeVerifying | UpgradeUncordon
    | Upgrade113ImagePull | Upgrade113Upgrade | UpgradeLegacyUpgrade

  /** The request behind a node operation: its type and the arguments that steer a handler. */
  datatype Job = Job(
    kind: OpKind,
    component: Component,
    unsafe: bool,
    hasAddress: bool,   // Provision: an address was given
    skip: bool,         // Provision: only mark the node as provisioned
    wipesState: bool)   // Reset: the stored arguments include the STATE partition

  /** A node operation. `id` tells two operations of the same kind apart; the code never reads it. */
  datatype NodeOp = NodeOp(job: Job, phase: Phase, id: nat)

  predicate Complete(p: Phase) { p.Done? || p.Failed? }

  /** The phases that `areOtherOperationsInProgress` counts as holding the cluster. */
  predicate Active(p: Phase) { !p.Pending? && !p.Done? && !p.Failed? }

  /** Recorded component versions; 0 is the empty string. Only their order matters. */
  datatype Versions = Versions(apiserver: nat, controllerManager: nat, scheduler: nat, kubelet: nat) {
    function Get(c: Component): (v: nat)
      requires c != NoComponent
    {
      match c
      case APIServer => apiserver
      case ControllerManager => controllerManager
      case Scheduler => scheduler
      case Kubelet => kubelet
    }

    function Set(c: Component, v: nat): (r: Versions)
      requires c != NoComponent
      ensures r.Get(c) == v
      ensures forall d :: d != c && d != NoComponent ==> r.Get(d) == Get(d)
    {
      match c
      case APIServer => this.(apiserver := v)
      case ControllerManager => this.(controllerManager := v)
      case Scheduler => this.(scheduler := v)
      case Kubelet => this.(kubelet := v)
    }
  }

  /** What one pass over the pods of a node achieved. */
  datatype DrainPass = DrainPass(cordoned: bool, listed: seq<nat>, accepted: set<nat>)

  predicate FullPass(p: DrainPass) {
    p.cordoned && forall i :: 0 <= i < |p.listed| ==> p.listed[i] in p.accepted
  }

  datatype Node = Node(
    role: Role,
    op: Option<NodeOp>,
    // status conditions
    provisioned: Condition,
    ready: Condition,
    configInSync: Condition,
    drift: Condition,
    k8sInSync: Condition,
    k8sReady: Condition,
    unschedulable: Condition,
    needsInitialUpdate: Condition,
    // the rest of the stored object
    finalizer: bool,
    deleting: bool,
    bootID: nat,
    versions: Versions,
    // the machine behind it: its boot counter (boot IDs never repeat), its cordon bit, and the
    // recorded versions that the configuration it holds was generated for, if it was generated
    boot: nat,
    cordoned: bool,
    holds: Option<Versions>)

  /** The machine holds the configuration that would be generated now. */
  predicate InSync(n: Node) { n.holds == Some(n.versions) }

  /** `isOperationComplete` of the node controller. */
  predicate Idle(n: Node) { n.op.None? || Complete(n.op.value.phase) }

  /** The phase of the operation on a node that has one. */
  function PhaseOf(n: Node): Phase
    requires n.op.Some?
  {
    n.op.value.phase
  }

  function KindOf(n: Node): OpKind
    requires n.op.Some?
  {
    n.op.value.job.kind
  }

  function IdOf(n: Node): nat
    requires n.op.Some?
  {
    n.op.value.id
  }
}
