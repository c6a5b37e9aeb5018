/**
 * Where a pass leads, given the answers from outside, and that no operation gets stuck while these
 * are good.
 */
module NodePhases {
  import opened Types
  import opened NodeSteps
  import opened NodeCycles

  // ---------------------------------------------------------------- answers from outside

  /** What Kubernetes says during a drain. `refused` are the pods whose eviction or deletion fails. */
  datatype DrainAnswers = DrainAnswers(timedOut: bool, cordons: bool, lists: bool, pods: seq<nat>, refused: set<nat>)

  datatype PullMessage = PullProgress | PulledName | PullBroken
  datatype InstallMessage = InstallText | ExitCode(code: int) | InstallBroken

  /** Everything else a handler asks of Talos, Kubernetes, the registry and the clock. */
  datatype Answers = Answers(
    clients: bool,            // clients could be created
    config: bool,             // the machine configuration could be generated
    release: bool,            // the running release could be read
    image: bool,              // the install image is valid
    needsUpgrade: bool,       // the running release is not the one configured
    drain: DrainAnswers,
    imageExists: bool,
    modern: bool,             // Talos 1.13 or later
    pull: seq<PullMessage>,
    install: seq<InstallMessage>,
    accepted: bool,           // the call of this phase was accepted
    dryRun: bool,
    needsReboot: bool,        // a configuration that the machine does not hold yet takes a reboot
    nodeReadable: bool,       // Kubernetes shows its node
    kubeletReady: bool,
    bootReadable: bool,
    backUp: bool,             // after a reboot: Kubernetes is back as it was before
    timedOut: bool,
    uncordons: bool,
    enabled: bool,            // the component is enabled in the configuration
    longhorn: bool,
    rebooted: bool,           // Talos reboots by itself for a configuration it does not hold yet
    verified: bool,           // component, image and readiness are as wanted
    gone: bool)               // after a reset: the machine does not answer any more

  /** What a status pass finds out. */
  datatype Findings = Findings(
    reachable: bool, bootReadable: bool, release: bool, config: bool, image: bool,
    inSync: bool, drifted: bool, kubernetes: bool, kubeletReady: bool, annotated: bool)

  /** What a Provision meets at its target. */
  datatype Site = Site(
    clients: bool, taken: bool, reachable: bool, config: bool, accepted: bool, timedOut: bool,
    outOfMaintenance: bool, image: bool, release: bool, needsUpdate: bool)

  /** A drain gets through exactly if it is in time, cordons the node, and no listed pod is refused. */
  predicate DrainsFully(a: DrainAnswers) {
    !a.timedOut && a.cordons && a.lists && forall i :: 0 <= i < |a.pods| ==> a.pods[i] !in a.refused
  }

  /** The node after a status pass that got to its end; `inSync` is about all of the machine but its configuration. */
  function Seen(n: Node, f: Findings, target: nat): Node {
    n.(bootID := n.boot, ready := Yes, configInSync := FromBool(f.inSync && InSync(n)),
       drift := if !(f.inSync && InSync(n)) && f.drifted then Yes else n.drift,
       k8sInSync := FromBool(UpToDate(n, target)),
       k8sReady := if f.kubernetes then FromBool(f.kubeletReady) else No,
       unschedulable := if f.kubernetes then FromBool(n.cordoned) else n.unschedulable)
  }

  /** A status pass that nothing stands in the way of. */
  predicate Unhindered(f: Findings) {
    f.reachable && f.bootReadable && f.release && f.config && f.image && (f.kubernetes ==> f.annotated)
  }

  // ---------------------------------------------------------------- the phase after a pass

  predicate Rebooted(n: Node, a: Answers) { a.bootReadable && n.boot != n.bootID && (n.k8sReady == Yes ==> a.backUp) }

  function DrainNext(n: Node, a: DrainAnswers, next: Phase): Phase
    requires n.op.Some?
  {
    if n.op.value.job.unsafe then next
    else if a.timedOut then Failed
    else if DrainsFully(a) then next
    else PhaseOf(n)
  }

  function BootstrapNext(n: Node, a: Answers): Phase
    requires n.op.Some?
  {
    match PhaseOf(n)
    case Pending => Applying
    case Applying => if !a.clients then Applying else if a.accepted then Done else Failed
    case p => p
  }

  function PowerNext(n: Node, a: Answers): Phase
    requires n.op.Some?
  {
    if !a.clients then PhaseOf(n)
    else match PhaseOf(n)
      case Pending => if n.op.value.job.unsafe then Applying else Draining
      case Draining => DrainNext(n, a.drain, Applying)
      case Applying => if !a.accepted then Failed else if KindOf(n).Reboot? then Verifying else Done
      case Verifying => if a.timedOut then Failed else if Rebooted(n, a) && a.uncordons then Done else Verifying
      case p => p
  }

  function ResetNext(n: Node, a: Answers): Phase
    requires n.op.Some?
  {
    if !a.clients then PhaseOf(n)
    else match PhaseOf(n)
      case Pending => Draining
      case Draining => DrainNext(n, a.drain, Applying)
      case Applying => if a.accepted then Verifying else Failed
      case Verifying => if a.gone then Done else Verifying
      case p => p
  }

  predicate PullOk(stream: seq<PullMessage>) { PulledName in stream && PullBroken !in stream }

  predicate InstallOk(stream: seq<InstallMessage>) {
    forall i :: 0 <= i < |stream| ==> !stream[i].InstallBroken? && (stream[i].ExitCode? ==> stream[i].code == 0)
  }

  function InstallNext(p: Phase, a: Answers): Phase {
    match p
    case UpgradePreflight => if !a.imageExists then Failed else if a.modern then Upgrade113ImagePull else UpgradeLegacyUpgrade
    case Upgrade113ImagePull => if a.accepted && PullOk(a.pull) then Upgrade113Upgrade else Failed
    case Upgrade113Upgrade => if a.accepted && InstallOk(a.install) then UpgradeVerifying else Failed
    case UpgradeLegacyUpgrade => if a.accepted then UpgradeVerifying else Failed
    case _ => Failed
  }

  function UpgradeNext(n: Node, a: Answers): Phase
    requires n.op.Some?
  {
    if !a.clients then PhaseOf(n)
    else if !a.config || !a.release || !a.image then Failed
    else match PhaseOf(n)
      case Pending => if !a.needsUpgrade then Done else if n.k8sReady == Yes then UpgradeDrain else UpgradePreflight
      case UpgradeDrain => DrainNext(n, a.drain, UpgradePreflight)
      case UpgradeVerifying => if a.timedOut then Failed else if !Rebooted(n, a) then UpgradeVerifying else if a.needsUpgrade then Failed else UpgradeUncordon
      case UpgradeUncordon => if !a.uncordons then Failed else if KindOf(n).Apply? then Applying else Done
      case p => InstallNext(p, a)
  }

  function ApplyNext(n: Node, a: Answers): Phase
    requires n.op.Some?
  {
    if !a.clients || !a.config || !a.release then PhaseOf(n)
    else if !a.image then Failed
    else if IsUpgradePhase(PhaseOf(n)) then UpgradeNext(n, a)
    else match PhaseOf(n)
      case Pending => if n.configInSync == Yes then Done else if a.needsUpgrade then UpgradeDrain else Applying
      case Applying =>
        var reboot := a.needsReboot && !InSync(n);
        if !a.dryRun then Failed
        else if reboot && !a.nodeReadable then Applying
        else if reboot && a.kubeletReady && !n.cordoned then ApplyDrain
        else if !a.accepted then Failed
        else if reboot then ApplyVerifying
        else Done
      case ApplyDrain => DrainNext(n, a.drain, Applying)
      case ApplyVerifying =>
        if a.timedOut then Failed
        else if Rebooted(n, a) && (n.k8sReady == Yes ==> a.kubeletReady) && (n.unschedulable == Yes || a.uncordons) then Done
        else ApplyVerifying
      case p => p
  }

  function ComponentNext(n: Node, a: Answers): Phase
    requires n.op.Some?
  {
    var c := n.op.value.job.component;
    if !a.clients then PhaseOf(n)
    else if !a.config then Failed
    else match PhaseOf(n)
      case Pending =>
        if n.configInSync != Yes || !ComponentFits(c, n.role) then Failed
        else if (c.ControllerManager? || c.Scheduler?) && !a.enabled then Done
        else if a.longhorn && c.Kubelet? then Draining
        else Applying
      case Draining => DrainNext(n, a.drain, Applying)
      case Applying =>
        if !a.accepted then Failed
        else if c.Kubelet? && a.longhorn && !(a.rebooted && !InSync(n)) then KubeletReboot
        else Verifying
      case KubeletReboot => if a.accepted then VerifyReboot else KubeletReboot
      case VerifyReboot => if Rebooted(n, a) then Verifying else if a.timedOut then Failed else VerifyReboot
      case Verifying =>
        if a.timedOut || c.NoComponent? || !a.image then Failed
        else if a.verified && (n.unschedulable == Yes || a.uncordons) then Done
        else Verifying
      case p => p
  }

  function ProvisionNext(n: Node, a: Site): Phase
    requires n.op.Some?
  {
    if !n.op.value.job.hasAddress && !n.op.value.job.skip then Failed
    else if !a.clients then PhaseOf(n)
    else match PhaseOf(n)
      case Pending => if n.provisioned == Yes then Failed else if n.op.value.job.skip then ProvisionVerifying else Provisioning
      case Provisioning => if a.taken || n.holds.Some? then Failed else if a.reachable && a.config && a.accepted then ProvisionVerifying else Provisioning
      case ProvisionVerifying =>
        if a.timedOut then Failed
        else if !a.outOfMaintenance || !a.config then ProvisionVerifying
        else if !a.image then Failed
        else if !a.release then ProvisionVerifying
        else Done
      case p => p
  }

  function HandlerNext(n: Node, a: Answers): Phase
    requires n.op.Some?
  {
    match KindOf(n)
    case Provision => PhaseOf(n)
    case Bootstrap => BootstrapNext(n, a)
    case Apply => ApplyNext(n, a)
    case Upgrade => UpgradeNext(n, a)
    case ComponentUpgrade => ComponentNext(n, a)
    case Shutdown => PowerNext(n, a)
    case Reboot => PowerNext(n, a)
    case Reset => ResetNext(n, a)
  }

  // ---------------------------------------------------------------- progress

  /** The phases each machine goes through. */
  predicate InMachine(k: OpKind, p: Phase) {
    match k
    case Provision => p.Pending? || p.Provisioning? || p.ProvisionVerifying?
    case Bootstrap => p.Pending? || p.Applying?
    case Apply => p.Pending? || p.Applying? || p.ApplyDrain? || p.ApplyVerifying? || IsUpgradePhase(p)
    case Upgrade => p.Pending? || IsUpgradePhase(p)
    case ComponentUpgrade => p.Pending? || p.Draining? || p.Applying? || p.KubeletReboot? || p.VerifyReboot? || p.Verifying?
    case Shutdown => p.Pending? || p.Draining? || p.Applying?
    case Reboot => p.Pending? || p.Draining? || p.Applying? || p.Verifying?
    case Reset => p.Pending? || p.Draining? || p.Applying? || p.Verifying?
  }

  /** How many passes an operation is from its end, at most. */
  function Left(n: Node): nat
    requires n.op.Some?
  {
    var p := PhaseOf(n);
    if Complete(p) then 0
    else match KindOf(n)
      case Apply => Ahead(p, n.cordoned)
      case Upgrade => Ahead(p, n.cordoned)
      case ComponentUpgrade =>
        if p.Pending? then 6 else if p.Draining? then 5 else if p.Applying? then 4
        else if p.KubeletReboot? then 3 else if p.VerifyReboot? then 2 else 1
      case _ => if p.Pending? then 4 else if p.Draining? || p.Provisioning? then 3 else if p.Applying? then 2 else 1
  }

  /** The phases that wait for the machine to come back. */
  predicate AwaitsReboot(n: Node)
    requires n.op.Some?
  {
    var p := PhaseOf(n);
    p.UpgradeVerifying? || p.ApplyVerifying? || p.VerifyReboot? || (p.Verifying? && KindOf(n).Reboot?)
  }

  predicate HealthyOutside(a: Answers) {
    && a.clients && a.config && a.release && a.image && DrainsFully(a.drain) && a.imageExists && a.accepted && a.dryRun
    && PullOk(a.pull) && InstallOk(a.install)
    && a.nodeReadable && a.kubeletReady && a.bootReadable && a.backUp && !a.timedOut && a.uncordons && a.verified && a.gone
  }

  /** Everything asked for is granted, and the operation is one the node can carry out. */
  predicate Healthy(n: Node, a: Answers)
    requires n.op.Some?
  {
    && HealthyOutside(a) && InMachine(KindOf(n), PhaseOf(n))
    && (AwaitsReboot(n) ==> n.boot != n.bootID)
    && (PhaseOf(n).UpgradeVerifying? ==> !a.needsUpgrade)
    && (KindOf(n).Apply? && n.op.value.job.unsafe ==> !a.needsReboot)
    && Feasible(n)
  }

  /**
   * The node can carry its operation out: no unsafe drain loop, a component that fits, a node in sync,
   * for a Provision an address and a machine that is in maintenance mode.
   */
  predicate Feasible(n: Node)
    requires n.op.Some?
  {
    && (KindOf(n).Apply? && n.op.value.job.unsafe ==> !PhaseOf(n).ApplyDrain?)
    && (KindOf(n).ComponentUpgrade? ==> ComponentFits(n.op.value.job.component, n.role))
    && (KindOf(n).ComponentUpgrade? && PhaseOf(n).Pending? ==> n.configInSync == Yes)
    && (KindOf(n).Provision? ==> n.op.value.job.hasAddress || n.op.value.job.skip)
    && (KindOf(n).Provision? && PhaseOf(n).Pending? ==> n.provisioned != Yes && (n.op.value.job.skip || n.holds.None?))
    && (KindOf(n).Provision? && PhaseOf(n).Provisioning? ==> n.holds.None?)
  }

  /** `m` is closer to its end than `n`, or there. */
  predicate Closer(n: Node, m: Node)
    requires n.op.Some? && m.op.Some?
  {
    Left(m) < Left(n) && (PhaseOf(m).Done? || (InMachine(KindOf(m), PhaseOf(m)) && Feasible(m)))
  }

  lemma UpgradeProgress(n: Node, m: Node, d: Deed, a: Answers)
    requires n.op.Some? && Healthy(n, a) && UpgradeMove(n, m, d) && PhaseOf(m) == UpgradeNext(n, a)
    requires KindOf(n).Upgrade? || (KindOf(n).Apply? && IsUpgradePhase(PhaseOf(n)))
    ensures Closer(n, m)
  {
  }

  lemma ApplyProgress(n: Node, m: Node, d: Deed, a: Answers)
    requires n.op.Some? && Healthy(n, a) && ApplyMove(n, m, d) && PhaseOf(m) == ApplyNext(n, a) && KindOf(n).Apply?
    ensures Closer(n, m)
  {
    if IsUpgradePhase(PhaseOf(n)) { UpgradeProgress(n, m, d, a); }
  }

  lemma ComponentProgress(n: Node, m: Node, d: Deed, a: Answers, target: nat)
    requires n.op.Some? && Healthy(n, a) && ComponentMove(n, m, d, target) && PhaseOf(m) == ComponentNext(n, a)
    requires KindOf(n).ComponentUpgrade?
    ensures Closer(n, m)
  {
  }

  lemma PowerProgress(n: Node, m: Node, d: Deed, a: Answers)
    requires n.op.Some? && Healthy(n, a) && PowerMove(n, m, d) && PhaseOf(m) == PowerNext(n, a)
    requires KindOf(n).Reboot? || KindOf(n).Shutdown?
    ensures Closer(n, m)
  {
  }

  lemma ResetProgress(n: Node, m: Node, d: Deed, a: Answers)
    requires n.op.Some? && Healthy(n, a) && ResetMove(n, m, d) && PhaseOf(m) == ResetNext(n, a) && KindOf(n).Reset?
    ensures Closer(n, m)
  {
  }

  /** With everything granted, a pass that gets its writes through never fails and brings its operation closer to Done. */
  lemma HandlerProgress(n: Node, m: Node, d: Deed, a: Answers, target: nat)
    requires n.op.Some? && Healthy(n, a) && !KindOf(n).Provision?
    requires HandlerMove(n, m, d, false, target) && PhaseOf(m) == HandlerNext(n, a)
    ensures m.op.Some? && m.op.value.job == n.op.value.job && Closer(n, m)
  {
    HandlerKeepsFrame(n, m, d, false, target);
    hide ApplyMove, UpgradeMove, ComponentMove, PowerMove, ResetMove, ApplyNext, UpgradeNext, ComponentNext, PowerNext, ResetNext, Healthy, Closer;
    match KindOf(n)
    case Bootstrap => BootstrapProgress(n, m, d, a);
    case Apply => ApplyProgress(n, m, d, a);
    case Upgrade => UpgradeProgress(n, m, d, a);
    case ComponentUpgrade => ComponentProgress(n, m, d, a, target);
    case Shutdown => PowerProgress(n, m, d, a);
    case Reboot => PowerProgress(n, m, d, a);
    case Reset => ResetProgress(n, m, d, a);
  }

  lemma BootstrapProgress(n: Node, m: Node, d: Deed, a: Answers)
    requires n.op.Some? && Healthy(n, a) && BootstrapMove(n, m, d) && PhaseOf(m) == BootstrapNext(n, a) && KindOf(n).Bootstrap?
    ensures Closer(n, m)
  {
  }

  const Granted := Answers(true, true, true, true, false, DrainAnswers(false, true, true, [], {}), true, true,
    [PulledName], [], true, true, true, true, true, true, true, false, true, true, true, false, true, true)

  const GrantedSite := Site(true, false, true, true, true, false, true, true, true, false)

  lemma ProvisionProgress(n: Node, m: Node)
    requires n.op.Some? && KindOf(n).Provision? && InMachine(Provision, PhaseOf(n)) && Feasible(n)
    requires ProvisionMove(n, m) && PhaseOf(m) == ProvisionNext(n, GrantedSite)
    ensures m.op.Some? && m.op.value.job == n.op.value.job && Closer(n, m)
  {
  }

  lemma GrantedIsHealthy(n: Node, a: Answers)
    requires n.op.Some? && InMachine(KindOf(n), PhaseOf(n)) && Feasible(n) && (AwaitsReboot(n) ==> n.boot != n.bootID)
    requires a == Granted.(needsReboot := !n.op.value.job.unsafe)
    ensures Healthy(n, a)
  {
  }

  lemma UnfinishedInMachine(n: Node)
    requires n.op.Some? && InMachine(KindOf(n), PhaseOf(n))
    ensures !Complete(PhaseOf(n))
  {
  }
}
