/**
 * What one pass of the node controller may do to one node.
 *
 * Every predicate below lists the outcomes of a pass: each prefix of its writes is an outcome of
 * its own, because the operator may stop, or a write may fail, between any two of them. Calls to
 * Talos, Kubernetes and the registry are decided by the environment, so they appear as a choice.
 * Besides the node after the pass, a move names the deed that history remembers of it.
 */
module NodeSteps {
  import opened Types

  /** The part of a pass that later claims refer to. The code stores none of it. */
  datatype Deed =
    | Nothing
    | Passed(pass: DrainPass)   // cordoned the node and had every listed pod's removal accepted
    | Called                    // sent the reboot, shutdown, reset or bootstrap call
    | Skipped                   // found nothing to do
    // the machine accepted the generated configuration; whether it reboots for it, and whether
    // Kubernetes showed its node as ready
    | Accepted(reboots: bool, ready: bool)
    | UpgradeVerified
    | ApplyVerified
    | Verified                  // the last check of a reboot, a reset or a component upgrade passed

  // ---------------------------------------------------------------- status

  /** KubernetesInSync as the status pass computes it from the recorded versions. */
  predicate UpToDate(n: Node, target: nat) {
    && n.versions.kubelet == target
    && (n.role.Controlplane? ==>
          && n.versions.apiserver == target
          && n.versions.controllerManager == target
          && n.versions.scheduler == target)
  }

  /** A status pass that may have stopped anywhere. */
  predicate StatusMove(n: Node, m: Node, target: nat) {
    && m == n.(ready := m.ready, bootID := m.bootID, configInSync := m.configInSync,
               drift := m.drift, k8sInSync := m.k8sInSync, k8sReady := m.k8sReady,
               unschedulable := m.unschedulable)
    && (m.bootID == n.bootID || m.bootID == n.boot)
    && (m.drift == n.drift || m.drift == Yes)
    && (m.configInSync == n.configInSync || (m.configInSync == Yes ==> InSync(n)))
    && (m.k8sInSync == n.k8sInSync || m.k8sInSync == FromBool(UpToDate(n, target)))
    && (m.unschedulable == n.unschedulable || m.unschedulable == FromBool(n.cordoned))
  }

  /** A status pass that ran to its end, which is what lets the operation handlers run after it. */
  predicate FullStatusMove(n: Node, m: Node, target: nat) {
    && StatusMove(n, m, target)
    && m.bootID == n.boot
    && m.ready == Yes
    && m.configInSync != Unset && (m.configInSync == Yes ==> InSync(n))
    && m.k8sInSync == FromBool(UpToDate(n, target))
  }

  function DefaultVersion(v: nat, target: nat): nat { if v == 0 then target else v }

  /** Version defaulting of `Reconcile`: empty versions become the target, workers keep only a kubelet. */
  function Defaulted(v: Versions, role: Role, target: nat): Versions {
    if role.Controlplane? then
      Versions(DefaultVersion(v.apiserver, target), DefaultVersion(v.controllerManager, target),
               DefaultVersion(v.scheduler, target), DefaultVersion(v.kubelet, target))
    else
      Versions(0, 0, 0, DefaultVersion(v.kubelet, target))
  }

  // ---------------------------------------------------------------- handlers

  /** Same operation, possibly in another phase. */
  predicate SameOp(n: Node, m: Node)
    requires n.op.Some?
  {
    m.op.Some? && m.op.value == n.op.value.(phase := m.op.value.phase)
  }

  /** Only the phase and the cordon bit may differ. */
  predicate TouchesPhaseAndCordon(n: Node, m: Node)
    requires n.op.Some?
  {
    SameOp(n, m) && m == n.(op := m.op, cordoned := m.cordoned)
  }

  /** `m` is in phase `p`, its cordon bit as before. */
  predicate To(n: Node, m: Node, p: Phase)
    requires n.op.Some? && m.op.Some?
  {
    PhaseOf(m) == p && m.cordoned == n.cordoned
  }

  predicate Stays(n: Node, m: Node)
    requires n.op.Some? && m.op.Some?
  {
    To(n, m, PhaseOf(n))
  }

  /** The outcomes of `doNodeDrain`, over the phase and the cordon bit. */
  predicate DrainTo(n: Node, m: Node, d: Deed, next: Phase)
    requires n.op.Some? && m.op.Some?
  {
    if n.op.value.job.unsafe then
      d.Nothing? && (Stays(n, m) || To(n, m, next))
    else
      || (d.Nothing? && (Stays(n, m) || To(n, m, Failed) || (PhaseOf(m) == PhaseOf(n) && m.cordoned)))
      || (d.Passed? && FullPass(d.pass) && m.cordoned && (PhaseOf(m) == PhaseOf(n) || PhaseOf(m) == next))
  }

  predicate PowerMove(n: Node, m: Node, d: Deed)
    requires n.op.Some?
  {
    && TouchesPhaseAndCordon(n, m)
    && match PhaseOf(n)
       case Pending =>
         d.Nothing? && (Stays(n, m) || To(n, m, if n.op.value.job.unsafe then Applying else Draining))
       case Draining => DrainTo(n, m, d, Applying)
       case Applying =>
         || (d.Nothing? && Stays(n, m))
         || (d.Called? && (Stays(n, m) || To(n, m, Failed) || To(n, m, if KindOf(n).Reboot? then Verifying else Done)))
       case Verifying =>
         || (d.Nothing? && (Stays(n, m) || To(n, m, Failed)))
         || (n.boot != n.bootID && !m.cordoned &&
             ((d.Nothing? && PhaseOf(m).Verifying?) || (d.Verified? && PhaseOf(m).Done?)))
       case _ => d.Nothing? && Stays(n, m)
  }

  predicate BootstrapMove(n: Node, m: Node, d: Deed)
    requires n.op.Some?
  {
    && TouchesPhaseAndCordon(n, m)
    && match PhaseOf(n)
       case Pending => d.Nothing? && (Stays(n, m) || To(n, m, Applying))
       case Applying =>
         || (d.Nothing? && Stays(n, m))
         || (d.Called? && (Stays(n, m) || To(n, m, Failed) || To(n, m, Done)))
       case _ => d.Nothing? && Stays(n, m)
  }

  /** Conditions after a reset wiped the STATE partition. */
  function Unprovisioned(n: Node): Node {
    n.(provisioned := No, ready := No, configInSync := Unset, drift := Unset, k8sInSync := Unset,
       k8sReady := Unset, unschedulable := Unset, needsInitialUpdate := Unset)
  }

  predicate ResetMove(n: Node, m: Node, d: Deed)
    requires n.op.Some?
  {
    if PhaseOf(n).Verifying? && n.op.value.job.wipesState then
      // three writes: the finalizer, the conditions, the phase
      && SameOp(n, m)
      && (d == if PhaseOf(m).Done? then Verified else Nothing)
      && (|| m == n
          || m == n.(finalizer := false)
          || (m == Unprovisioned(n.(finalizer := false, op := m.op)) &&
              (PhaseOf(m).Verifying? || PhaseOf(m).Done?)))
    else
      && TouchesPhaseAndCordon(n, m)
      && match PhaseOf(n)
         case Pending => d.Nothing? && (Stays(n, m) || To(n, m, Draining))
         case Draining => DrainTo(n, m, d, Applying)
         case Applying =>
           || (d.Nothing? && Stays(n, m))
           || (d.Called? && (Stays(n, m) || To(n, m, Failed) || To(n, m, Verifying)))
         case Verifying => (d.Nothing? && Stays(n, m)) || (d.Verified? && To(n, m, Done))
         case _ => d.Nothing? && Stays(n, m)
  }

  predicate IsUpgradePhase(p: Phase) {
    || p.UpgradeDrain? || p.UpgradePreflight? || p.UpgradeVerifying? || p.UpgradeUncordon?
    || p.Upgrade113ImagePull? || p.Upgrade113Upgrade? || p.UpgradeLegacyUpgrade?
  }

  predicate UpgradeMove(n: Node, m: Node, d: Deed)
    requires n.op.Some?
  {
    && SameOp(n, m) && m == n.(op := m.op, cordoned := m.cordoned, bootID := m.bootID)
    && (PhaseOf(n).UpgradeVerifying? || m.bootID == n.bootID)
    && (|| (d.Nothing? && m.bootID == n.bootID && (Stays(n, m) || To(n, m, Failed)))
        || match PhaseOf(n)
           case Pending =>
             || (d.Skipped? && To(n, m, Done))
             || (d.Nothing? && To(n, m, if n.k8sReady == Yes then UpgradeDrain else UpgradePreflight))
           case UpgradeDrain => DrainTo(n, m, d, UpgradePreflight)
           case UpgradePreflight =>
             d.Nothing? && (To(n, m, Upgrade113ImagePull) || To(n, m, UpgradeLegacyUpgrade))
           case Upgrade113ImagePull => d.Nothing? && To(n, m, Upgrade113Upgrade)
           case Upgrade113Upgrade => d.Nothing? && To(n, m, UpgradeVerifying)
           case UpgradeLegacyUpgrade => d.Nothing? && To(n, m, UpgradeVerifying)
           case UpgradeVerifying =>
             // two writes: the boot ID, then the phase
             && n.boot != n.bootID && m.bootID == n.boot
             && ((d.Nothing? && Stays(n, m)) || (d.UpgradeVerified? && To(n, m, UpgradeUncordon)))
           case UpgradeUncordon =>
             && d.Nothing? && !m.cordoned
             && (PhaseOf(m).UpgradeUncordon? || PhaseOf(m) == if KindOf(n).Apply? then Applying else Done)
           case _ => false)
  }

  /** The cordon bit once an operation took back its own cordon: kept only if status showed one before. */
  predicate CordonRestored(n: Node, m: Node) {
    m.cordoned == (n.cordoned && n.unschedulable == Yes)
  }

  predicate ApplyMove(n: Node, m: Node, d: Deed)
    requires n.op.Some?
  {
    if IsUpgradePhase(PhaseOf(n)) then
      UpgradeMove(n, m, d)
    else
      && SameOp(n, m)
      && m == n.(op := m.op, cordoned := m.cordoned, drift := m.drift, configInSync := m.configInSync, holds := m.holds)
      && m.holds == (if d.Accepted? then Some(n.versions) else n.holds)
      && (|| (d.Nothing? && m.drift == n.drift && m.configInSync == n.configInSync && (Stays(n, m) || To(n, m, Failed)))
          || match PhaseOf(n)
             case Pending =>
               && m.drift == (if n.drift == Yes then Unset else n.drift)
               && m.configInSync == n.configInSync
               && (|| (d.Nothing? && Stays(n, m))
                   || (if n.configInSync == Yes then
                         d.Skipped? && To(n, m, Done)
                       else
                         d.Nothing? && (To(n, m, Applying) || To(n, m, UpgradeDrain))))
             case Applying =>
               && m.drift == n.drift && m.configInSync == n.configInSync
               // only a configuration that the machine does not hold yet can ask for a reboot, and a
               // node that is ready is cordoned before
               && (|| (d.Nothing? && !n.cordoned && !InSync(n) && To(n, m, ApplyDrain))
                   || (d.Accepted? && (d.reboots ==> !InSync(n)) && (d.reboots && d.ready ==> n.cordoned) &&
                       (Stays(n, m) || To(n, m, if d.reboots then ApplyVerifying else Done))))
             case ApplyDrain =>
               m.drift == n.drift && m.configInSync == n.configInSync && DrainTo(n, m, d, Applying)
             case ApplyVerifying =>
               // three writes: the cordon bit, ConfigInSync, the phase
               && n.boot != n.bootID && m.drift == n.drift && CordonRestored(n, m)
               && (|| (d.Nothing? && PhaseOf(m).ApplyVerifying? && (m.configInSync == n.configInSync || m.configInSync == Yes))
                   || (d.ApplyVerified? && PhaseOf(m).Done? && m.configInSync == Yes))
             case _ => false)
  }

  /** The component exists and lives on nodes of this role. */
  predicate ComponentFits(c: Component, role: Role) {
    c.Kubelet? || (role.Controlplane? && !c.NoComponent?)
  }

  predicate ComponentMove(n: Node, m: Node, d: Deed, target: nat)
    requires n.op.Some?
  {
    var c := n.op.value.job.component;
    && SameOp(n, m) && m == n.(op := m.op, cordoned := m.cordoned, versions := m.versions, holds := m.holds)
    && m.holds == (if d.Accepted? then Some(n.versions) else n.holds)
    && (|| (d.Nothing? && m.versions == n.versions && (Stays(n, m) || To(n, m, Failed)))
        || if PhaseOf(n).Pending? then
             // two writes: the recorded version, then the phase
             && n.configInSync == Yes
             && ComponentFits(c, n.role)
             && m.versions == n.versions.Set(c, target)
             && (|| (d.Nothing? && (Stays(n, m) || To(n, m, Applying) || (c.Kubelet? && To(n, m, Draining))))
                 || (d.Skipped? && (c.ControllerManager? || c.Scheduler?) && To(n, m, Done)))
           else
             && m.versions == n.versions
             && match PhaseOf(n)
                case Draining => DrainTo(n, m, d, Applying)
                case Applying =>
                  d.Accepted? && (Stays(n, m) || To(n, m, Verifying) || (c.Kubelet? && To(n, m, KubeletReboot)))
                case KubeletReboot => d.Nothing? && To(n, m, VerifyReboot)
                case VerifyReboot => d.Nothing? && n.boot != n.bootID && To(n, m, Verifying)
                case Verifying =>
                  CordonRestored(n, m) && ((d.Nothing? && PhaseOf(m).Verifying?) || (d.Verified? && PhaseOf(m).Done?))
                case _ => false)
  }

  /** Provisioning asks nobody: it neither checks for other operations nor takes the lock. */
  predicate ProvisionMove(n: Node, m: Node)
    requires n.op.Some?
  {
    && SameOp(n, m)
    && m == n.(op := m.op, provisioned := m.provisioned, ready := m.ready, finalizer := m.finalizer,
               needsInitialUpdate := m.needsInitialUpdate, holds := m.holds)
    && (|| m == n
        || (if n.op.value.job.hasAddress || n.op.value.job.skip then
              ProvisionPhaseMove(n, m)
            else
              PhaseOf(m).Failed? && m.provisioned == n.provisioned && m.holds == n.holds && SameRest(n, m)))
  }

  predicate SameRest(n: Node, m: Node) {
    m.ready == n.ready && m.finalizer == n.finalizer && m.needsInitialUpdate == n.needsInitialUpdate
  }

  predicate ProvisionPhaseMove(n: Node, m: Node)
    requires n.op.Some? && m.op.Some?
  {
    match PhaseOf(n)
    case Pending =>
      && SameRest(n, m) && m.holds == n.holds
      && if n.provisioned == Yes then
           m.provisioned == Yes && PhaseOf(m).Failed?
         else if n.op.value.job.skip then
           m.provisioned == Yes && (PhaseOf(m).Pending? || PhaseOf(m).ProvisionVerifying?)
         else
           m.provisioned == n.provisioned && PhaseOf(m).Provisioning?
    case Provisioning =>
      && SameRest(n, m)
      // a machine takes its first configuration only in maintenance mode
      && (|| (PhaseOf(m).Failed? && m.provisioned == n.provisioned && m.holds == n.holds)
          || (PhaseOf(m).Provisioning? && m.provisioned == No && m.holds == n.holds)
          || (n.holds.None? && m.holds == Some(n.versions) &&
              (|| (PhaseOf(m).Provisioning? && m.provisioned == n.provisioned)
               || (PhaseOf(m).ProvisionVerifying? && m.provisioned == Yes))))
    case ProvisionVerifying =>
      && m.provisioned == n.provisioned && m.holds == n.holds
      && (|| (PhaseOf(m).Failed? && m.ready == n.ready && m.needsInitialUpdate == n.needsInitialUpdate)
          || (PhaseOf(m).ProvisionVerifying? && m.ready == No && m.finalizer == n.finalizer && m.needsInitialUpdate == n.needsInitialUpdate)
          || ((PhaseOf(m).ProvisionVerifying? || PhaseOf(m).Done?) && m.ready == n.ready && m.finalizer &&
              (m.needsInitialUpdate == n.needsInitialUpdate || m.needsInitialUpdate == Yes)))
    case _ => false
  }

  /** Every handler but Provision starts by asking whether another node is active. */
  predicate HandlerMove(n: Node, m: Node, d: Deed, busy: bool, target: nat)
    requires n.op.Some?
  {
    if busy then
      m == n && d.Nothing?
    else
      match KindOf(n)
      case Provision => m == n && d.Nothing?
      case Bootstrap => BootstrapMove(n, m, d)
      case Apply => ApplyMove(n, m, d)
      case Upgrade => UpgradeMove(n, m, d)
      case ComponentUpgrade => ComponentMove(n, m, d, target)
      case Shutdown => PowerMove(n, m, d)
      case Reboot => PowerMove(n, m, d)
      case Reset => ResetMove(n, m, d)
  }

  // ---------------------------------------------------------------- one pass

  predicate ResetInProgress(n: Node) { !Idle(n) && KindOf(n).Reset? }

  /** The handlers are reached only on a provisioned node, or to finish a reset. */
  predicate Operable(n: Node) { n.provisioned == Yes || ResetInProgress(n) }

  /**
   * The three shapes of a pass. `Start` runs a Pending operation right behind a full status pass
   * of the same reconcile, `seen` being the node in between. `Run` continues an active operation:
   * status is frozen there, so the handler sees what the last `Start` recorded.
   */
  datatype Pass = Upkeep | Start(seen: Node, deed: Deed) | Run(deed: Deed)

  predicate UpkeepMove(n: Node, m: Node, target: nat) {
    || m == n.(ready := No)
    || m == n.(versions := Defaulted(n.versions, n.role, target))
    || (n.provisioned != Yes && !ResetInProgress(n) && m == n.(provisioned := No, ready := No))
    || (Operable(n) && (Idle(n) || PhaseOf(n).Pending?) && StatusMove(n, m, target))
    || (!Idle(n) && KindOf(n).Provision? && n.versions == Defaulted(n.versions, n.role, target) && ProvisionMove(n, m))
  }

  predicate NodeMove(n: Node, m: Node, pass: Pass, busy: bool, target: nat) {
    match pass
    case Upkeep => UpkeepMove(n, m, target)
    case Start(seen, d) =>
      && n.op.Some? && PhaseOf(n).Pending? && Operable(n)
      && FullStatusMove(n, seen, target) && HandlerMove(seen, m, d, busy, target)
    case Run(d) =>
      && n.op.Some? && Active(PhaseOf(n)) && Operable(n)
      && HandlerMove(n, m, d, busy, target)
  }

  // ---------------------------------------------------------------- what every pass keeps

  /** The parts of a node that no pass of its own controller changes. */
  predicate SameIdentity(n: Node, m: Node) {
    && m.role == n.role && m.boot == n.boot && m.deleting == n.deleting
    && m.op.Some? == n.op.Some?
    && (n.op.Some? ==> SameOp(n, m))
  }

  /** What a handler leaves alone, whatever its kind. */
  predicate HandlerFrame(n: Node, m: Node)
    requires n.op.Some?
  {
    && SameIdentity(n, m)
    && (PhaseOf(m).Pending? ==> PhaseOf(n).Pending?)
    && (m.provisioned == n.provisioned || KindOf(n).Reset?)
    && (m.versions == n.versions || KindOf(n).ComponentUpgrade?)
  }

  lemma UpgradeKeepsFrame(n: Node, m: Node, d: Deed)
    requires n.op.Some? && UpgradeMove(n, m, d)
    ensures HandlerFrame(n, m)
  {
  }

  lemma ApplyKeepsFrame(n: Node, m: Node, d: Deed)
    requires n.op.Some? && ApplyMove(n, m, d)
    ensures HandlerFrame(n, m)
  {
    if IsUpgradePhase(PhaseOf(n)) { UpgradeKeepsFrame(n, m, d); }
  }

  lemma ComponentKeepsFrame(n: Node, m: Node, d: Deed, target: nat)
    requires n.op.Some? && KindOf(n).ComponentUpgrade? && ComponentMove(n, m, d, target)
    ensures HandlerFrame(n, m)
  {
  }

  lemma ResetKeepsFrame(n: Node, m: Node, d: Deed)
    requires n.op.Some? && KindOf(n).Reset? && ResetMove(n, m, d)
    ensures HandlerFrame(n, m)
  {
  }

  lemma HandlerKeepsFrame(n: Node, m: Node, d: Deed, busy: bool, target: nat)
    requires n.op.Some? && HandlerMove(n, m, d, busy, target)
    ensures HandlerFrame(n, m)
    ensures busy ==> m == n
  {
    hide ApplyMove, UpgradeMove, ComponentMove, ResetMove;
    if !busy {
      match KindOf(n)
      case Provision =>
      case Bootstrap =>
      case Apply => ApplyKeepsFrame(n, m, d);
      case Upgrade => UpgradeKeepsFrame(n, m, d);
      case ComponentUpgrade => ComponentKeepsFrame(n, m, d, target);
      case Shutdown =>
      case Reboot =>
      case Reset => ResetKeepsFrame(n, m, d);
    }
  }

  lemma UpkeepKeepsIdentity(n: Node, m: Node, target: nat)
    requires UpkeepMove(n, m, target)
    ensures SameIdentity(n, m)
    ensures Idle(n) || !KindOf(n).Provision? ==> m.op == n.op
    ensures m.versions == n.versions || m.versions == Defaulted(n.versions, n.role, target)
    ensures n.op.Some? && PhaseOf(m).Pending? ==> PhaseOf(n).Pending?
  {
  }

  /**
   * A pass keeps the identity of the node and of its operation, never reopens a finished one, and
   * changes the phase of anything but a Provision only while no other node is active.
   */
  lemma PassFacts(n: Node, m: Node, pass: Pass, busy: bool, target: nat)
    requires NodeMove(n, m, pass, busy, target)
    ensures SameIdentity(n, m)
    ensures Idle(n) ==> m.op == n.op
    ensures n.op.Some? && m.op != n.op && !KindOf(n).Provision? ==> !busy && !pass.Upkeep?
    ensures n.op.Some? && PhaseOf(m).Pending? ==> PhaseOf(n).Pending?
  {
    match pass
    case Upkeep => UpkeepKeepsIdentity(n, m, target);
    case Start(seen, d) => HandlerKeepsFrame(seen, m, d, busy, target);
    case Run(d) => HandlerKeepsFrame(n, m, d, busy, target);
  }

  /** A Provision works on the machine only while the node is not provisioned yet. */
  predicate ProvisionSane(n: Node) {
    n.op.Some? && KindOf(n).Provision? && PhaseOf(n).Provisioning? ==> n.provisioned != Yes
  }

  /** Short of a reset, a provisioned node stays provisioned, whatever Provision is requested on it. */
  lemma StaysProvisioned(n: Node, m: Node, pass: Pass, busy: bool, target: nat)
    requires NodeMove(n, m, pass, busy, target) && ProvisionSane(n) && !ResetInProgress(n)
    ensures ProvisionSane(m)
    ensures n.provisioned == Yes ==> m.provisioned == Yes
  {
    match pass
    case Upkeep =>
    case Start(seen, d) => HandlerKeepsFrame(seen, m, d, busy, target);
    case Run(d) => HandlerKeepsFrame(n, m, d, busy, target);
  }

  lemma ResetOnlyUnprovisions(n: Node, m: Node, d: Deed)
    requires n.op.Some? && ResetMove(n, m, d)
    ensures m.provisioned == n.provisioned || m.provisioned == No
  {
  }

  /** Only a Provision makes a node provisioned, and only once its versions are on record. */
  lemma BecomesProvisioned(n: Node, m: Node, pass: Pass, busy: bool, target: nat)
    requires NodeMove(n, m, pass, busy, target) && n.provisioned != Yes && m.provisioned == Yes
    ensures pass.Upkeep? && n.op.Some? && KindOf(n).Provision? && SameOp(n, m)
    ensures n.versions == Defaulted(n.versions, n.role, target) && m.versions == n.versions && m.role == n.role
  {
    match pass
    case Upkeep =>
    case Start(seen, d) =>
      HandlerKeepsFrame(seen, m, d, busy, target);
      if KindOf(n).Reset? && !busy { ResetOnlyUnprovisions(seen, m, d); }
    case Run(d) =>
      HandlerKeepsFrame(n, m, d, busy, target);
      if KindOf(n).Reset? && !busy { ResetOnlyUnprovisions(n, m, d); }
  }
}
