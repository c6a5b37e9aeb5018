/**
 * The node controller as it runs: one phase switch per operation type over a stored object, with
 * calls to the outside answered by the environment. Every handler is shown to make one of the moves
 * of its phase machine, wherever its writes stop succeeding.
 */
module NodeController {
  import opened Types
  import opened NodeSteps
  import opened Protocol
  import opened EligibleNodes
  import opened NodePhases
  import opened Chains

  // ---------------------------------------------------------------- streams

  /** An image pull is good when the stream ends without an error and has named the image. */
  method ReceivePull(stream: seq<PullMessage>) returns (ok: bool)
    ensures ok <==> PullOk(stream)
  {
    ok := false;
    for i := 0 to |stream|
      invariant ok <==> PulledName in stream[..i]
      invariant PullBroken !in stream[..i]
    {
      assert stream[..i + 1] == stream[..i] + [stream[i]];
      if stream[i].PullBroken? { return false; }
      if stream[i].PulledName? { ok := true; }
    }
    assert stream[..|stream|] == stream;
  }

  /** An installation is good when the stream ends without an error and without a non-zero exit code. */
  method ReceiveInstall(stream: seq<InstallMessage>) returns (ok: bool)
    ensures ok <==> InstallOk(stream)
  {
    for i := 0 to |stream|
      invariant forall j :: 0 <= j < i ==> !stream[j].InstallBroken? && (stream[j].ExitCode? ==> stream[j].code == 0)
    {
      if stream[i].InstallBroken? { return false; }
      if stream[i].ExitCode? && stream[i].code != 0 { return false; }
    }
    ok := true;
  }

  /** One try to remove every listed pod; all of them are tried, whatever happens to the others. */
  method EvictAll(a: DrainAnswers) returns (ok: bool, accepted: set<nat>)
    ensures ok <==> forall i :: 0 <= i < |a.pods| ==> a.pods[i] !in a.refused
    ensures forall p :: p in accepted <==> p in a.pods && p !in a.refused
  {
    ok, accepted := true, {};
    for i := 0 to |a.pods|
      invariant ok <==> forall j :: 0 <= j < i ==> a.pods[j] !in a.refused
      invariant forall p :: p in accepted <==> p in a.pods[..i] && p !in a.refused
    {
      assert a.pods[..i + 1] == a.pods[..i] + [a.pods[i]];
      if a.pods[i] in a.refused {
        ok := false;
      } else {
        accepted := accepted + {a.pods[i]};
      }
    }
    assert a.pods[..|a.pods|] == a.pods;
  }

  // ---------------------------------------------------------------- the object under reconciliation

  class NodeObject {
    /** The stored node, together with the machine behind it. */
    var n: Node
    /** How many more writes succeed. */
    var budget: nat

    constructor (node: Node, writes: nat)
      ensures n == node && budget == writes
    {
      n, budget := node, writes;
    }

    /** `updateOpStatus`: the phase changes, nothing else. */
    method SetPhase(p: Phase) returns (ok: bool)
      requires n.op.Some?
      modifies this
      ensures ok == (old(budget) > 0) && budget == if ok then old(budget) - 1 else 0
      ensures n == if ok then old(n).(op := Some(old(n).op.value.(phase := p))) else old(n)
    {
      ok := budget > 0;
      if ok {
        n := n.(op := Some(n.op.value.(phase := p)));
        budget := budget - 1;
      }
    }

    /** Any other write of the stored node. */
    method Write(m: Node) returns (ok: bool)
      modifies this
      ensures ok == (old(budget) > 0) && budget == if ok then old(budget) - 1 else 0
      ensures n == if ok then m else old(n)
    {
      ok := budget > 0;
      if ok { n, budget := m, budget - 1; }
    }

    /** Cordons the node, tries every pod once, and moves on only if all of them were accepted. */
    method Drain(a: DrainAnswers, next: Phase) returns (d: Deed)
      requires n.op.Some?
      modifies this
      ensures TouchesPhaseAndCordon(old(n), n) && DrainTo(old(n), n, d, next)
      ensures d.Passed? <==>
                && !old(n).op.value.job.unsafe && !a.timedOut && a.cordons && a.lists
                && forall i :: 0 <= i < |a.pods| ==> a.pods[i] !in a.refused
      ensures d.Passed? ==> d.pass.listed == a.pods
      ensures PhaseOf(n) == PhaseOf(old(n)) || PhaseOf(n) == next || (PhaseOf(n).Failed? && a.timedOut)
      ensures !old(n).op.value.job.unsafe && a.timedOut && old(budget) > 0 ==> PhaseOf(n).Failed?
      ensures old(budget) > 0 ==> PhaseOf(n) == DrainNext(old(n), a, next)
      ensures !old(n).op.value.job.unsafe && !a.timedOut && a.cordons ==> n.cordoned
    {
      d := Nothing;
      if n.op.value.job.unsafe {
        var _ := SetPhase(next);
        return;
      }
      if a.timedOut {
        var _ := SetPhase(Failed);
        return;
      }
      if !a.cordons { return; }
      n := n.(cordoned := true);
      if !a.lists { return; }
      var ok, accepted := EvictAll(a);
      if !ok { return; }
      d := Passed(DrainPass(true, a.pods, accepted));
      var _ := SetPhase(next);
    }

    /** `hasNodeRebootedYet` */
    method HasRebooted(a: Answers) returns (yes: bool)
      ensures yes <==> a.bootReadable && n.boot != n.bootID && (n.k8sReady == Yes ==> a.backUp)
    {
      if !a.bootReadable { return false; }
      if n.boot == n.bootID { return false; }
      if n.k8sReady != Yes { return true; }
      yes := a.backUp;
    }

    method Bootstraps(a: Answers) returns (d: Deed)
      requires n.op.Some?
      modifies this
      ensures BootstrapMove(old(n), n, d)
      ensures old(budget) >= 3 ==> PhaseOf(n) == BootstrapNext(old(n), a)
      ensures d.Called? ==> a.clients
      ensures PhaseOf(old(n)).Applying? && PhaseOf(n).Done? ==> a.accepted
      ensures PhaseOf(old(n)).Applying? && PhaseOf(n).Failed? ==> !a.accepted
    {
      d := Nothing;
      match PhaseOf(n) {
        case Pending => var _ := SetPhase(Applying);
        case Applying =>
          if !a.clients { return; }
          d := Called;
          var _ := SetPhase(if a.accepted then Done else Failed);
        case _ =>
      }
    }

    method Powers(a: Answers) returns (d: Deed)
      requires n.op.Some?
      modifies this
      ensures PowerMove(old(n), n, d)
      ensures old(budget) >= 3 ==> PhaseOf(n) == PowerNext(old(n), a)
      ensures d.Called? ==> a.clients
      ensures PhaseOf(old(n)).Applying? && PhaseOf(n) != Applying ==> (PhaseOf(n).Failed? <==> !a.accepted)
      ensures PhaseOf(old(n)).Verifying? && PhaseOf(n).Failed? ==> a.timedOut
      ensures d.Verified? ==> !a.timedOut && a.bootReadable && a.uncordons && (old(n).k8sReady == Yes ==> a.backUp)
    {
      d := Nothing;
      if !a.clients { return; }
      var p := PhaseOf(n);
      if p.Pending? {
        var _ := SetPhase(if n.op.value.job.unsafe then Applying else Draining);
      } else if p.Draining? {
        d := Drain(a.drain, Applying);
      } else if p.Applying? {
        d := Called;
        var _ := SetPhase(if !a.accepted then Failed else if KindOf(n).Reboot? then Verifying else Done);
      } else if p.Verifying? {
        d := VerifyReboots(a);
      }
    }

    method VerifyReboots(a: Answers) returns (d: Deed)
      requires n.op.Some? && PhaseOf(n).Verifying?
      modifies this
      ensures PowerMove(old(n), n, d)
      ensures PhaseOf(n).Failed? ==> a.timedOut
      ensures d.Verified? ==> !a.timedOut && a.bootReadable && a.uncordons && (old(n).k8sReady == Yes ==> a.backUp)
      ensures old(budget) >= 3 && a.clients ==> PhaseOf(n) == PowerNext(old(n), a)
      ensures PhaseOf(n).Done? ==> n.boot != n.bootID && !n.cordoned
    {
      d := Nothing;
      if a.timedOut {
        var _ := SetPhase(Failed);
        return;
      }
      var rebooted := HasRebooted(a);
      if !rebooted || !a.uncordons { return; }
      n := n.(cordoned := false);
      var ok := SetPhase(Done);
      if ok { d := Verified; }
    }

    method Resets(a: Answers) returns (d: Deed)
      requires n.op.Some?
      modifies this
      ensures ResetMove(old(n), n, d)
      ensures old(budget) >= 3 ==> PhaseOf(n) == ResetNext(old(n), a)
      ensures d.Called? ==> a.clients
      ensures PhaseOf(old(n)).Applying? && PhaseOf(n) != Applying ==> (PhaseOf(n).Failed? <==> !a.accepted)
      ensures d.Verified? ==> a.gone
    {
      d := Nothing;
      if !a.clients { return; }
      match PhaseOf(n) {
        case Pending => var _ := SetPhase(Draining);
        case Draining => d := Drain(a.drain, Applying);
        case Applying =>
          d := Called;
          var _ := SetPhase(if a.accepted then Verifying else Failed);
        case Verifying =>
          if a.gone { d := FinishReset(); }
        case _ =>
      }
    }

    /** Up to three writes: the finalizer and the conditions if STATE was wiped, then the phase. */
    method FinishReset() returns (d: Deed)
      requires n.op.Some? && PhaseOf(n).Verifying?
      modifies this
      ensures ResetMove(old(n), n, d)
      ensures old(budget) >= 3 ==> PhaseOf(n).Done? && (old(n).op.value.job.wipesState ==> n.provisioned == No && !n.finalizer)
    {
      d := Nothing;
      if n.op.value.job.wipesState {
        var ok := Write(n.(finalizer := false));
        if !ok { return; }
        ok := Write(Unprovisioned(n));
        if !ok { return; }
      }
      var done := SetPhase(Done);
      if done { d := Verified; }
    }

    /** The OS upgrade, on its own or as a subroutine of Apply. */
    method Upgrades(a: Answers) returns (d: Deed)
      requires n.op.Some? && !Complete(PhaseOf(n))
      modifies this
      ensures UpgradeMove(old(n), n, d)
      ensures old(budget) >= 3 ==> PhaseOf(n) == UpgradeNext(old(n), a)
      ensures PhaseOf(old(n)).Pending? && PhaseOf(n).Done? ==> d.Skipped? && !a.needsUpgrade
      ensures PhaseOf(old(n)).Pending? && PhaseOf(n) != Pending && PhaseOf(n) != Done && PhaseOf(n) != Failed ==> a.needsUpgrade
      ensures d.UpgradeVerified? ==> !a.needsUpgrade && !a.timedOut && a.bootReadable && (old(n).k8sReady == Yes ==> a.backUp)
    {
      d := Nothing;
      if !a.clients { return; }
      if !a.config || !a.release || !a.image {
        var _ := SetPhase(Failed);
        return;
      }
      var p := PhaseOf(n);
      if p.Pending? {
        d := BeginUpgrade(a);
      } else if p.UpgradeDrain? {
        d := Drain(a.drain, UpgradePreflight);
      } else if p.UpgradeVerifying? {
        d := VerifyUpgrade(a);
      } else if p.UpgradeUncordon? {
        EndUpgrade(a);
      } else {
        Installs(a);
      }
    }

    /** Skips an upgrade that is not needed; drains first if Kubernetes runs. */
    method BeginUpgrade(a: Answers) returns (d: Deed)
      requires n.op.Some? && PhaseOf(n).Pending?
      modifies this
      ensures UpgradeMove(old(n), n, d)
      ensures old(budget) >= 3 && a.clients && a.config && a.release && a.image ==> PhaseOf(n) == UpgradeNext(old(n), a)
      ensures d.Skipped? || d.Nothing?
      ensures (PhaseOf(n).UpgradeDrain? ==> n.k8sReady == Yes) && (PhaseOf(n).UpgradePreflight? ==> n.k8sReady != Yes)
      ensures PhaseOf(n).Done? ==> d.Skipped? && !a.needsUpgrade
      ensures PhaseOf(n) != Pending && PhaseOf(n) != Done ==> a.needsUpgrade
    {
      d := Nothing;
      if !a.needsUpgrade {
        var ok := SetPhase(Done);
        if ok { d := Skipped; }
      } else {
        var _ := SetPhase(if n.k8sReady == Yes then UpgradeDrain else UpgradePreflight);
      }
    }

    method EndUpgrade(a: Answers)
      requires n.op.Some? && PhaseOf(n).UpgradeUncordon?
      modifies this
      ensures UpgradeMove(old(n), n, Nothing)
      ensures old(budget) >= 3 && a.clients && a.config && a.release && a.image ==> PhaseOf(n) == UpgradeNext(old(n), a)
      ensures PhaseOf(n).Failed? ==> !a.uncordons
      ensures PhaseOf(n).Applying? ==> KindOf(n).Apply? && !n.cordoned
      ensures PhaseOf(n).Done? ==> !KindOf(n).Apply? && !n.cordoned
    {
      if !a.uncordons {
        var _ := SetPhase(Failed);
      } else {
        n := n.(cordoned := false);
        var _ := SetPhase(if KindOf(n).Apply? then Applying else Done);
      }
    }

    /** The phases of the two upgrade paths. */
    method Installs(a: Answers)
      requires n.op.Some?
      requires var p := PhaseOf(n); !Complete(p) && !p.Pending? && !p.UpgradeDrain? && !p.UpgradeVerifying? && !p.UpgradeUncordon?
      modifies this
      ensures UpgradeMove(old(n), n, Nothing)
      ensures old(budget) >= 3 ==> PhaseOf(n) == InstallNext(PhaseOf(old(n)), a)
      ensures PhaseOf(old(n)).UpgradePreflight? && PhaseOf(n) != PhaseOf(old(n)) && !PhaseOf(n).Failed? ==>
                a.imageExists && PhaseOf(n) == if a.modern then Upgrade113ImagePull else UpgradeLegacyUpgrade
      ensures PhaseOf(old(n)).Upgrade113ImagePull? && PhaseOf(n).Upgrade113Upgrade? ==> a.accepted && PulledName in a.pull && PullBroken !in a.pull
      ensures PhaseOf(old(n)).Upgrade113Upgrade? && PhaseOf(n).UpgradeVerifying? ==>
                a.accepted && forall i :: 0 <= i < |a.install| ==> !a.install[i].InstallBroken? && (a.install[i].ExitCode? ==> a.install[i].code == 0)
      ensures PhaseOf(old(n)).UpgradeLegacyUpgrade? && PhaseOf(n).UpgradeVerifying? ==> a.accepted
    {
      var p, next := PhaseOf(n), Failed;
      if p.UpgradePreflight? {
        if a.imageExists { next := if a.modern then Upgrade113ImagePull else UpgradeLegacyUpgrade; }
      } else if p.Upgrade113ImagePull? {
        var ok := ReceivePull(a.pull);
        if a.accepted && ok { next := Upgrade113Upgrade; }
      } else if p.Upgrade113Upgrade? {
        var ok := ReceiveInstall(a.install);
        if a.accepted && ok { next := UpgradeVerifying; }
      } else if p.UpgradeLegacyUpgrade? {
        if a.accepted { next := UpgradeVerifying; }
      }
      var _ := SetPhase(next);
    }

    /** Two writes: the boot ID, so that Apply can tell its own reboot, then the phase. */
    method VerifyUpgrade(a: Answers) returns (d: Deed)
      requires n.op.Some? && PhaseOf(n).UpgradeVerifying?
      modifies this
      ensures UpgradeMove(old(n), n, d)
      ensures old(budget) >= 3 && a.clients && a.config && a.release && a.image ==> PhaseOf(n) == UpgradeNext(old(n), a)
      ensures d.UpgradeVerified? ==> n.bootID == n.boot != old(n).bootID
      ensures PhaseOf(n).Failed? ==> a.timedOut || (a.needsUpgrade && n.boot != n.bootID)
      ensures d.UpgradeVerified? ==> !a.needsUpgrade && !a.timedOut && a.bootReadable && (old(n).k8sReady == Yes ==> a.backUp)
    {
      d := Nothing;
      if a.timedOut {
        var _ := SetPhase(Failed);
        return;
      }
      var rebooted := HasRebooted(a);
      if !rebooted { return; }
      if a.needsUpgrade {
        var _ := SetPhase(Failed);
        return;
      }
      var ok := Write(n.(bootID := n.boot));
      if !ok { return; }
      ok := SetPhase(UpgradeUncordon);
      if ok { d := UpgradeVerified; }
    }

    method Applies(a: Answers) returns (d: Deed)
      requires n.op.Some? && !Complete(PhaseOf(n))
      modifies this
      ensures ApplyMove(old(n), n, d)
      ensures old(budget) >= 3 ==> PhaseOf(n) == ApplyNext(old(n), a)
      ensures d.Accepted? ==> a.accepted && d.reboots == (a.needsReboot && !InSync(old(n))) && d.ready == a.kubeletReady
      ensures d.Accepted? && a.needsReboot && !InSync(old(n)) && a.kubeletReady ==> old(n).cordoned
    {
      d := Nothing;
      if !a.clients || !a.config || !a.release { return; }
      if !a.image {
        var _ := SetPhase(Failed);
        return;
      }
      if IsUpgradePhase(PhaseOf(n)) {
        d := Upgrades(a);
        return;
      }
      match PhaseOf(n) {
        case Pending => d := BeginApply(a);
        case Applying => d := SendConfig(a);
        case ApplyDrain => d := Drain(a.drain, Applying);
        case ApplyVerifying => d := VerifyApply(a);
        case _ =>
      }
    }

    /** Clears a drift mark, then skips, applies, or upgrades first. */
    method BeginApply(a: Answers) returns (d: Deed)
      requires n.op.Some? && PhaseOf(n).Pending?
      modifies this
      ensures ApplyMove(old(n), n, d)
      ensures old(budget) >= 3 && a.clients && a.config && a.release && a.image ==> PhaseOf(n) == ApplyNext(old(n), a)
      ensures old(budget) >= 2 ==> (d.Skipped? <==> old(n).configInSync == Yes) && n.drift != Yes
      ensures PhaseOf(n).UpgradeDrain? ==> a.needsUpgrade && old(n).configInSync != Yes
      ensures PhaseOf(n).Applying? ==> !a.needsUpgrade && old(n).configInSync != Yes
    {
      d := Nothing;
      if n.drift == Yes {
        var ok := Write(n.(drift := Unset));
        if !ok { return; }
      }
      if n.configInSync == Yes {
        var ok := SetPhase(Done);
        if ok { d := Skipped; }
        return;
      }
      var _ := SetPhase(if a.needsUpgrade then UpgradeDrain else Applying);
    }

    /** A dry run tells whether a reboot is due; if so the node is drained first, unless that is pointless. */
    method SendConfig(a: Answers) returns (d: Deed)
      requires n.op.Some? && PhaseOf(n).Applying?
      modifies this
      ensures ApplyMove(old(n), n, d)
      ensures old(budget) >= 3 && a.clients && a.config && a.release && a.image ==> PhaseOf(n) == ApplyNext(old(n), a)
      ensures d.Accepted? ==> a.dryRun && a.accepted && d.reboots == (a.needsReboot && !InSync(old(n))) && d.ready == a.kubeletReady
      ensures d.Accepted? && a.needsReboot && !InSync(old(n)) ==> a.nodeReadable && (a.kubeletReady ==> old(n).cordoned)
      ensures PhaseOf(n).ApplyDrain? ==> a.needsReboot && !InSync(old(n)) && a.nodeReadable && a.kubeletReady && !old(n).cordoned
      ensures PhaseOf(n).Failed? ==> !a.dryRun || !a.accepted
    {
      d := Nothing;
      if !a.dryRun {
        var _ := SetPhase(Failed);
        return;
      }
      var reboot := a.needsReboot && !InSync(n);
      if reboot {
        if !a.nodeReadable { return; }
        if a.kubeletReady && !n.cordoned {
          var _ := SetPhase(ApplyDrain);
          return;
        }
      }
      if !a.accepted {
        var _ := SetPhase(Failed);
        return;
      }
      d := Accepted(reboot, a.kubeletReady);
      n := n.(holds := Some(n.versions));
      var _ := SetPhase(if reboot then ApplyVerifying else Done);
    }

    /** Three effects: the cordon is taken back if it was ours, ConfigInSync, the phase. */
    method VerifyApply(a: Answers) returns (d: Deed)
      requires n.op.Some? && PhaseOf(n).ApplyVerifying?
      modifies this
      ensures ApplyMove(old(n), n, d)
      ensures old(budget) >= 3 && a.clients && a.config && a.release && a.image ==> PhaseOf(n) == ApplyNext(old(n), a)
      ensures d.ApplyVerified? ==> n.boot != n.bootID && !a.timedOut && a.bootReadable
      ensures d.ApplyVerified? ==> (old(n).k8sReady == Yes ==> a.backUp && a.kubeletReady) && (old(n).unschedulable != Yes ==> a.uncordons)
    {
      d := Nothing;
      if a.timedOut {
        var _ := SetPhase(Failed);
        return;
      }
      var rebooted := HasRebooted(a);
      if !rebooted { return; }
      if n.k8sReady == Yes && !a.kubeletReady { return; }
      if n.unschedulable != Yes {
        if !a.uncordons { return; }
        n := n.(cordoned := false);
      }
      var ok := Write(n.(configInSync := Yes));
      if !ok { return; }
      ok := SetPhase(Done);
      if ok { d := ApplyVerified; }
    }

    method UpgradesComponent(a: Answers, target: nat) returns (d: Deed)
      requires n.op.Some? && !Complete(PhaseOf(n))
      modifies this
      ensures ComponentMove(old(n), n, d, target)
      ensures old(budget) >= 3 ==> PhaseOf(n) == ComponentNext(old(n), a)
      ensures d.Skipped? ==> !a.enabled
      ensures PhaseOf(old(n)).Pending? && PhaseOf(n).Done? ==> !a.enabled
      ensures d.Accepted? ==> a.accepted
      ensures d.Verified? ==> a.verified && !a.timedOut && a.image
    {
      d := Nothing;
      if !a.clients { return; }
      if !a.config {
        var _ := SetPhase(Failed);
        return;
      }
      var p := PhaseOf(n);
      if p.Pending? {
        d := BeginComponent(a, target);
      } else if p.Draining? {
        d := Drain(a.drain, Applying);
      } else if p.Applying? || p.KubeletReboot? || p.VerifyReboot? {
        d := RollComponent(a, target);
      } else if p.Verifying? {
        d := VerifyComponent(a, target);
      }
    }

    /** Applying the new configuration, and rebooting for Longhorn's sake unless Talos does so itself. */
    method RollComponent(a: Answers, target: nat) returns (d: Deed)
      requires n.op.Some? && (PhaseOf(n).Applying? || PhaseOf(n).KubeletReboot? || PhaseOf(n).VerifyReboot?)
      modifies this
      ensures ComponentMove(old(n), n, d, target)
      ensures old(budget) >= 3 && a.clients && a.config ==> PhaseOf(n) == ComponentNext(old(n), a)
      ensures !d.Skipped? && !d.Verified? && !PhaseOf(n).Done? && (d.Accepted? ==> a.accepted)
      ensures var c := old(n).op.value.job.component;
              && (PhaseOf(old(n)).Applying? && PhaseOf(n).Verifying? && c.Kubelet? && a.longhorn ==> a.rebooted && !InSync(old(n)))
              && (PhaseOf(old(n)).Applying? && PhaseOf(n).KubeletReboot? ==> c.Kubelet? && a.longhorn)
      ensures PhaseOf(old(n)).KubeletReboot? && PhaseOf(n).VerifyReboot? ==> a.accepted
      ensures PhaseOf(old(n)).VerifyReboot? && PhaseOf(n).Verifying? ==> a.bootReadable && (old(n).k8sReady == Yes ==> a.backUp)
    {
      d := Nothing;
      var p := PhaseOf(n);
      if p.Applying? {
        if !a.accepted {
          var _ := SetPhase(Failed);
          return;
        }
        var reboot := n.op.value.job.component.Kubelet? && a.longhorn && !(a.rebooted && !InSync(n));
        d := Accepted(reboot, a.kubeletReady);
        n := n.(holds := Some(n.versions));
        var _ := SetPhase(if reboot then KubeletReboot else Verifying);
      } else if p.KubeletReboot? {
        if a.accepted { var _ := SetPhase(VerifyReboot); }
      } else {
        var rebooted := HasRebooted(a);
        if rebooted {
          var _ := SetPhase(Verifying);
        } else if a.timedOut {
          var _ := SetPhase(Failed);
        }
      }
    }

    /** Checks, then two writes: the recorded version, then the phase. */
    method BeginComponent(a: Answers, target: nat) returns (d: Deed)
      requires n.op.Some? && PhaseOf(n).Pending?
      modifies this
      ensures ComponentMove(old(n), n, d, target)
      ensures old(budget) >= 3 && a.clients && a.config ==> PhaseOf(n) == ComponentNext(old(n), a)
      ensures old(budget) >= 2 ==>
                (PhaseOf(n).Failed? <==> old(n).configInSync != Yes || !ComponentFits(old(n).op.value.job.component, old(n).role))
      ensures old(budget) >= 2 && !PhaseOf(n).Failed? ==>
                n.versions.Get(old(n).op.value.job.component) == target
      ensures d.Skipped? || PhaseOf(n).Done? ==> !a.enabled && (old(n).op.value.job.component.ControllerManager? || old(n).op.value.job.component.Scheduler?)
      ensures !d.Accepted? && !d.Verified?
      ensures PhaseOf(n).Draining? ==> old(n).op.value.job.component.Kubelet? && a.longhorn
      ensures PhaseOf(n).Applying? && old(n).op.value.job.component.Kubelet? ==> !a.longhorn
      ensures PhaseOf(n).Applying? && (old(n).op.value.job.component.ControllerManager? || old(n).op.value.job.component.Scheduler?) ==> a.enabled
    {
      d := Nothing;
      var c := n.op.value.job.component;
      if n.configInSync != Yes || c.NoComponent? || (n.role.Worker? && !c.Kubelet?) {
        var _ := SetPhase(Failed);
        return;
      }
      hide ComponentMove;
      d := RecordComponent(a, target);
    }

    /** The two writes. */
    method RecordComponent(a: Answers, target: nat) returns (d: Deed)
      requires n.op.Some? && PhaseOf(n).Pending? && n.configInSync == Yes && ComponentFits(n.op.value.job.component, n.role)
      modifies this
      ensures ComponentMove(old(n), n, d, target) && n.op.Some?
      ensures d.Skipped? || d.Nothing?
      ensures old(budget) >= 2 ==> n.versions == old(n).versions.Set(old(n).op.value.job.component, target)
      ensures var c := old(n).op.value.job.component;
              var skip := (c.ControllerManager? || c.Scheduler?) && !a.enabled;
              && (d.Skipped? ==> skip)
              && (PhaseOf(n).Pending? || PhaseOf(n) == if skip then Done else if c.Kubelet? && a.longhorn then Draining else Applying)
              && (old(budget) >= 2 ==> !PhaseOf(n).Pending?)
    {
      d := Nothing;
      var c := n.op.value.job.component;
      var skip := (c.ControllerManager? || c.Scheduler?) && !a.enabled;
      hide ComponentMove;
      var ok := Write(n.(versions := n.versions.Set(c, target)));
      if ok {
        ok := SetPhase(if skip then Done else if a.longhorn && c.Kubelet? then Draining else Applying);
        if ok && skip { d := Skipped; }
      }
      RecordingMoves(old(n), n, d, target);
    }

    method VerifyComponent(a: Answers, target: nat) returns (d: Deed)
      requires n.op.Some? && PhaseOf(n).Verifying?
      modifies this
      ensures ComponentMove(old(n), n, d, target)
      ensures !d.Skipped? && !d.Accepted? && (d.Verified? ==> a.verified && !a.timedOut && a.image)
      ensures PhaseOf(n).Failed? ==> a.timedOut || !a.image || old(n).op.value.job.component.NoComponent?
      ensures old(budget) >= 3 && a.clients && a.config ==> PhaseOf(n) == ComponentNext(old(n), a)
      ensures PhaseOf(n).Done? ==> CordonRestored(old(n), n)
    {
      d := Nothing;
      if a.timedOut || n.op.value.job.component.NoComponent? || !a.image {
        var _ := SetPhase(Failed);
        return;
      }
      if !a.verified { return; }
      if n.unschedulable != Yes {
        if !a.uncordons { return; }
        n := n.(cordoned := false);
      }
      var ok := SetPhase(Done);
      if ok { d := Verified; }
    }

    method Provisions(a: Site)
      requires n.op.Some? && KindOf(n).Provision? && !Complete(PhaseOf(n))
      modifies this
      ensures ProvisionMove(old(n), n)
      ensures old(budget) >= 3 ==> PhaseOf(n) == ProvisionNext(old(n), a)
      ensures n.holds != old(n).holds ==> !a.taken && old(n).holds.None? && a.reachable && a.config && a.accepted
      ensures old(n).provisioned != Yes && n.provisioned == Yes ==> old(n).op.value.job.skip || (!a.taken && a.reachable && a.config && a.accepted)
      ensures PhaseOf(n).Done? ==> !a.timedOut && a.outOfMaintenance && a.image && a.release
    {
      if !n.op.value.job.hasAddress && !n.op.value.job.skip {
        var _ := SetPhase(Failed);
        return;
      }
      if !a.clients { return; }
      var p := PhaseOf(n);
      if p.Pending? {
        BeginProvision(a);
      } else if p.Provisioning? {
        SendFirstConfig(a);
      } else if p.ProvisionVerifying? {
        VerifyProvision(a);
      }
    }

    method BeginProvision(a: Site)
      requires n.op.Some? && PhaseOf(n).Pending? && (n.op.value.job.hasAddress || n.op.value.job.skip)
      modifies this
      ensures ProvisionMove(old(n), n)
      ensures old(budget) >= 3 && a.clients ==> PhaseOf(n) == ProvisionNext(old(n), a)
      ensures n.holds == old(n).holds && !PhaseOf(n).Done?
      ensures old(n).provisioned != Yes && n.provisioned == Yes ==> old(n).op.value.job.skip
    {
      if n.provisioned == Yes {
        // a provisioned node must not take over another machine
        var _ := SetPhase(Failed);
      } else if n.op.value.job.skip {
        var ok := Write(n.(provisioned := Yes));
        if ok { ok := SetPhase(ProvisionVerifying); }
      } else {
        var _ := SetPhase(Provisioning);
      }
    }

    method SendFirstConfig(a: Site)
      requires n.op.Some? && PhaseOf(n).Provisioning? && (n.op.value.job.hasAddress || n.op.value.job.skip)
      modifies this
      ensures ProvisionMove(old(n), n)
      ensures old(budget) >= 3 && a.clients ==> PhaseOf(n) == ProvisionNext(old(n), a)
      ensures !PhaseOf(n).Done?
      ensures n.holds != old(n).holds || (old(n).provisioned != Yes && n.provisioned == Yes) ==>
                !a.taken && old(n).holds.None? && a.reachable && a.config && a.accepted
    {
      if a.taken || n.holds.Some? {
        // whoever answers there has left maintenance mode
        var _ := SetPhase(Failed);
      } else if !a.reachable || !a.config || !a.accepted {
        var _ := Write(n.(provisioned := No));
      } else {
        n := n.(holds := Some(n.versions));
        var _ := Write(n.(provisioned := Yes, op := Some(n.op.value.(phase := ProvisionVerifying))));
      }
    }

    method VerifyProvision(a: Site)
      requires n.op.Some? && PhaseOf(n).ProvisionVerifying? && (n.op.value.job.hasAddress || n.op.value.job.skip)
      modifies this
      ensures ProvisionMove(old(n), n)
      ensures old(budget) >= 3 && a.clients ==> PhaseOf(n) == ProvisionNext(old(n), a)
      ensures PhaseOf(n).Done? ==> !a.timedOut && a.outOfMaintenance && a.config && a.image && a.release
      ensures n.holds == old(n).holds && n.provisioned == old(n).provisioned
      ensures PhaseOf(n).Done? ==> n.finalizer && (a.needsUpdate ==> n.needsInitialUpdate == Yes)
    {
      if a.timedOut {
        var _ := SetPhase(Failed);
        return;
      }
      if !a.outOfMaintenance {
        var _ := Write(n.(ready := No));
        return;
      }
      var ok := Write(n.(finalizer := true));
      if !ok || !a.config { return; }
      if !a.image {
        ok := SetPhase(Failed);
        return;
      }
      if !a.release { return; }
      if a.needsUpdate {
        ok := Write(n.(needsInitialUpdate := Yes));
        if !ok { return; }
      }
      ok := SetPhase(Done);
    }

    /** First part of a status pass: reach the machine and record its boot. */
    method Reach(a: Findings, target: nat) returns (ok: bool)
      modifies this
      ensures StatusMove(old(n), n, target)
      ensures ok ==> n == old(n).(bootID := old(n).boot, ready := Yes)
      ensures old(budget) >= 2 ==> budget >= old(budget) - 2 && (ok <==> a.reachable && a.bootReadable && a.release)
    {
      ok := false;
      if !a.reachable {
        var _ := Write(n.(ready := No));
        return;
      }
      if !a.bootReadable { return; }
      if n.bootID != n.boot {
        var done := Write(n.(bootID := n.boot));
        if !done { return; }
      }
      if !a.release { return; }
      ok := true;
      if n.ready != Yes { ok := Write(n.(ready := Yes)); }
    }

    /** Second part: compare the configurations. */
    method Compare(a: Findings, target: nat) returns (ok: bool)
      modifies this
      ensures StatusMove(old(n), n, target)
      ensures ok ==>
                var sync := a.inSync && InSync(old(n));
                n == old(n).(configInSync := FromBool(sync), drift := if !sync && a.drifted then Yes else old(n).drift)
      ensures old(budget) >= 1 ==> budget >= old(budget) - 1 && (ok <==> a.config && a.image)
    {
      ok := false;
      if !a.config { return; }
      if !a.image {
        var _ := Write(n.(ready := No));
        return;
      }
      var sync := a.inSync && InSync(n);
      var drift := if !sync && a.drifted then Yes else n.drift;
      ok := Write(n.(drift := drift, configInSync := FromBool(sync)));
    }

    /** Third part: compare the recorded versions with the target. */
    method CompareVersions(target: nat) returns (ok: bool)
      modifies this
      ensures StatusMove(old(n), n, target)
      ensures ok ==> n == old(n).(k8sInSync := FromBool(UpToDate(old(n), target)))
      ensures ok ==>
                var v := old(n).versions;
                n.k8sInSync == if v.kubelet == target && (old(n).role.Worker? || (v.apiserver == target && v.controllerManager == target && v.scheduler == target)) then Yes else No
      ensures old(budget) >= 1 ==> budget >= old(budget) - 1 && ok
    {
      var behind := false;
      if n.role.Controlplane? {
        if n.versions.apiserver != target || n.versions.controllerManager != target || n.versions.scheduler != target {
          behind := true;
        }
      }
      if n.versions.kubelet != target { behind := true; }
      ok := true;
      if behind && n.k8sInSync != No {
        ok := Write(n.(k8sInSync := No));
      } else if !behind && n.k8sInSync != Yes {
        ok := Write(n.(k8sInSync := Yes));
      }
    }

    /** Last part: how Kubernetes sees the node. */
    method ReadKubernetes(a: Findings, target: nat) returns (ok: bool)
      modifies this
      ensures StatusMove(old(n), n, target)
      ensures ok ==>
                n == old(n).(k8sReady := if a.kubernetes then FromBool(a.kubeletReady) else No,
                             unschedulable := if a.kubernetes then FromBool(old(n).cordoned) else old(n).unschedulable)
      ensures old(budget) >= 1 ==> budget >= old(budget) - 1 && (ok <==> (a.kubernetes ==> a.annotated))
    {
      if a.kubernetes {
        ok := Write(n.(k8sReady := FromBool(a.kubeletReady), unschedulable := FromBool(n.cordoned)));
        ok := ok && a.annotated;
      } else {
        ok := Write(n.(k8sReady := No));
      }
    }

    /** Only a status pass that got to its end lets the handlers run. */
    method RefreshStatus(a: Findings, target: nat) returns (complete: bool)
      modifies this
      ensures StatusMove(old(n), n, target)
      ensures complete ==> n == Seen(old(n), a, target)
      ensures complete ==> n.bootID == old(n).boot && n.ready == Yes
      ensures complete ==> n.configInSync == (if a.inSync && old(n).holds == Some(old(n).versions) then Yes else No)
      ensures complete && n.drift != old(n).drift ==> n.drift == Yes && n.configInSync == No && a.drifted
      ensures complete && n.configInSync == No && a.drifted ==> n.drift == Yes
      ensures complete ==> n.k8sReady == (if a.kubernetes && a.kubeletReady then Yes else No)
      ensures complete && a.kubernetes ==> n.unschedulable == (if old(n).cordoned then Yes else No)
      ensures old(budget) >= 5 ==> budget >= old(budget) - 5 && (complete <==> Unhindered(a))
    {
      hide StatusMove, UpToDate;
      complete := Reach(a, target);
      if !complete { return; }
      var reached := n;
      complete := Compare(a, target);
      StatusMovesJoin(old(n), reached, n, target);
      if !complete { return; }
      var compared := n;
      complete := CompareVersions(target);
      StatusMovesJoin(old(n), compared, n, target);
      if !complete { return; }
      var versioned := n;
      complete := ReadKubernetes(a, target);
      StatusMovesJoin(old(n), versioned, n, target);
    }

    /** The dispatch on the operation type. */
    method Handle(a: Answers, busy: bool, target: nat) returns (d: Deed)
      requires n.op.Some? && !Complete(PhaseOf(n))
      modifies this
      ensures HandlerMove(old(n), n, d, busy, target) && n.op.Some?
      ensures !busy && old(budget) >= 3 ==> PhaseOf(n) == HandlerNext(old(n), a)
    {
      hide BootstrapMove, ApplyMove, UpgradeMove, ComponentMove, PowerMove, ResetMove;
      hide BootstrapNext, ApplyNext, UpgradeNext, ComponentNext, PowerNext, ResetNext;
      d := Nothing;
      if busy { return; }
      match KindOf(n) {
        case Provision =>
        case Bootstrap => d := Bootstraps(a);
        case Apply => d := Applies(a);
        case Upgrade => d := Upgrades(a);
        case ComponentUpgrade => d := UpgradesComponent(a, target);
        case Shutdown => d := Powers(a);
        case Reboot => d := Powers(a);
        case Reset => d := Resets(a);
      }
      HandlerKeepsFrame(old(n), n, d, busy, target);
    }

    /** The last part of a reconcile: status while it is not frozen, then the handler. */
    method Operate(f: Findings, a: Answers, busy: bool, target: nat) returns (pass: Pass)
      requires Operable(n)
      modifies this
      ensures NodeMove(old(n), n, pass, busy, target) || n == old(n)
      ensures old(n).op.Some? && Active(PhaseOf(old(n))) ==> pass.Run?
      ensures old(n).op.Some? && PhaseOf(old(n)).Pending? && old(budget) >= 8 ==> (pass.Start? <==> Unhindered(f))
      ensures pass.Run? && !busy && old(budget) >= 8 ==> old(n).op.Some? && n.op.Some? && PhaseOf(n) == HandlerNext(old(n), a)
      ensures pass.Start? ==> pass.seen == Seen(old(n), f, target)
      ensures pass.Start? && !busy && old(budget) >= 8 ==> pass.seen.op.Some? && n.op.Some? && PhaseOf(n) == HandlerNext(pass.seen, a)
    {
      hide HandlerMove;
      pass := Upkeep;
      if n.op.Some? && Active(PhaseOf(n)) {
        var d := Handle(a, busy, target);
        return Run(d);
      }
      var complete := RefreshStatus(f, target);
      if !complete {
        // a status that could not be determined makes the node not ready
        ghost var was := n;
        if n.ready != No { var _ := Write(n.(ready := No)); }
        StatusMovesJoin(old(n), was, n, target);
      } else if !Idle(n) {
        var seen := n;
        SeenIsFull(old(n), f, target);
        var d := Handle(a, busy, target);
        pass := Start(seen, d);
      }
    }

    /**
     * No phase is a dead end: from every phase of every machine, a world that grants everything and
     * a machine that reboots whenever that is waited for lead the operation to Done, in a bounded
     * number of passes. A stranded verification gets out only by a reboot that nobody asked for.
     */
    method Finish(target: nat) returns (passes: nat)
      requires n.op.Some? && InMachine(KindOf(n), PhaseOf(n)) && Feasible(n)
      modifies this
      ensures n.op.Some? && PhaseOf(n).Done? && n.op.value.job == old(n).op.value.job
      ensures passes <= Left(old(n))
    {
      hide HandlerMove, HandlerNext, ProvisionMove, ProvisionNext, Left, InMachine, Feasible, DrainsFully;
      passes := 0;
      ghost var job := n.op.value.job;
      while !PhaseOf(n).Done?
        invariant n.op.Some? && n.op.value.job == job
        invariant PhaseOf(n).Done? || (InMachine(KindOf(n), PhaseOf(n)) && Feasible(n))
        invariant passes + Left(n) <= Left(old(n))
        decreases Left(n)
      {
        if AwaitsReboot(n) && n.boot == n.bootID { Reboot(); }
        budget := 3;
        ghost var was := n;
        assert !Complete(PhaseOf(n)) by { UnfinishedInMachine(n); }
        if KindOf(n).Provision? {
          Provisions(GrantedSite);
          ProvisionProgress(was, n);
        } else {
          var a := Granted.(needsReboot := !n.op.value.job.unsafe);
          GrantedIsHealthy(n, a);
          var d := Handle(a, false, target);
          HandlerProgress(was, n, d, a, target);
        }
        passes := passes + 1;
      }
    }

    method Reboot()
      requires n.op.Some?
      modifies this
      ensures n == old(n).(boot := old(n).boot + 1) && Left(n) == Left(old(n))
      ensures Feasible(old(n)) ==> Feasible(n)
    {
      n := n.(boot := n.boot + 1);
    }

    /** Versions that are not recorded yet become the target; workers record only a kubelet. */
    method DefaultVersions(target: nat) returns (ok: bool)
      modifies this
      ensures ok ==> n == old(n).(versions := Defaulted(old(n).versions, old(n).role, target))
      ensures !ok ==> n == old(n) && old(budget) == 0
      ensures old(budget) > 0 ==> budget >= old(budget) - 1
    {
      var v, changed := n.versions, false;
      if v.kubelet == 0 { v, changed := v.(kubelet := target), true; }
      if n.role.Controlplane? {
        if v.apiserver == 0 { v, changed := v.(apiserver := target), true; }
        if v.controllerManager == 0 { v, changed := v.(controllerManager := target), true; }
        if v.scheduler == 0 { v, changed := v.(scheduler := target), true; }
      } else {
        if v.apiserver != 0 { v, changed := v.(apiserver := 0), true; }
        if v.controllerManager != 0 { v, changed := v.(controllerManager := 0), true; }
        if v.scheduler != 0 { v, changed := v.(scheduler := 0), true; }
      }
      ok := true;
      if changed { ok := Write(n.(versions := v)); }
    }

    /** A whole reconcile is a chain of moves of the phase machines, however early it ends. */
    method Reconcile(configOk: bool, site: Site, f: Findings, a: Answers, busy: bool, target: nat) returns (ghost nodes: seq<Node>, ghost passes: seq<Pass>)
      modifies this
      ensures Chain(nodes, passes, busy, target) && nodes[0] == old(n) && nodes[|passes|] == n
      ensures var o := old(n);
              o.op.Some? && Active(PhaseOf(o)) && !KindOf(o).Provision? && Operable(o) && configOk && !busy && old(budget) >= 9 ==>
                n.op.Some? && PhaseOf(n) == HandlerNext(o.(versions := Defaulted(o.versions, o.role, target)), a)
    {
      hide HandlerMove, HandlerNext, StatusMove, ProvisionMove, Defaulted;
      nodes, passes := [n], [];
      var ok := DefaultVersions(target);
      nodes, passes := Extend(nodes, passes, n, Upkeep, busy, target);
      if !ok { return; }
      if !configOk {
        ok := Write(n.(ready := No));
        nodes, passes := Extend(nodes, passes, n, Upkeep, busy, target);
        return;
      }
      if !Idle(n) && KindOf(n).Provision? {
        DefaultedTwice(old(n).versions, n.role, target);
        Provisions(site);
        nodes, passes := Extend(nodes, passes, n, Upkeep, busy, target);
        if !Idle(n) { return; }
      }
      if !Operable(n) {
        ok := Write(n.(provisioned := No, ready := No));
        nodes, passes := Extend(nodes, passes, n, Upkeep, busy, target);
        return;
      }
      var pass := Operate(f, a, busy, target);
      nodes, passes := Extend(nodes, passes, n, pass, busy, target);
    }
  }

  /** What the two writes of a component upgrade's Pending pass may come to. */
  lemma RecordingMoves(n: Node, m: Node, d: Deed, target: nat)
    requires n.op.Some? && PhaseOf(n).Pending? && n.configInSync == Yes && ComponentFits(n.op.value.job.component, n.role)
    requires m.op.Some? && m.op.value == n.op.value.(phase := PhaseOf(m))
    requires m == n || m == n.(op := m.op, versions := n.versions.Set(n.op.value.job.component, target))
    requires var c := n.op.value.job.component;
             if PhaseOf(m).Done? then d.Skipped? && (c.ControllerManager? || c.Scheduler?)
             else d.Nothing? && (PhaseOf(m).Pending? || PhaseOf(m).Applying? || (PhaseOf(m).Draining? && c.Kubelet?))
    ensures ComponentMove(n, m, d, target)
  {
  }

  /** What defaulting makes of each version. */
  lemma DefaultedFieldwise(v: Versions, role: Role, target: nat)
    ensures var w := Defaulted(v, role, target);
            && w.kubelet == (if v.kubelet == 0 then target else v.kubelet)
            && (role.Worker? ==> w.apiserver == 0 && w.controllerManager == 0 && w.scheduler == 0)
            && (role.Controlplane? ==>
                  && w.apiserver == (if v.apiserver == 0 then target else v.apiserver)
                  && w.controllerManager == (if v.controllerManager == 0 then target else v.controllerManager)
                  && w.scheduler == (if v.scheduler == 0 then target else v.scheduler))
  {
  }

  lemma DefaultedTwice(v: Versions, role: Role, target: nat)
    ensures var d := Defaulted(v, role, target); Defaulted(d, role, target) == d
  {
  }

  lemma SeenIsFull(n: Node, f: Findings, target: nat)
    ensures FullStatusMove(n, Seen(n, f, target), target) && Seen(n, f, target).op == n.op
  {
  }

  lemma StatusMovesJoin(n: Node, m: Node, k: Node, target: nat)
    requires StatusMove(n, m, target) && StatusMove(m, k, target)
    ensures StatusMove(n, k, target)
    ensures UpToDate(k, target) == UpToDate(m, target) == UpToDate(n, target) && k.boot == m.boot == n.boot
  {
  }

  /** Add a move to a chain, unless nothing moved. */
  ghost method Extend(nodes: seq<Node>, passes: seq<Pass>, m: Node, pass: Pass, busy: bool, target: nat)
    returns (moreNodes: seq<Node>, morePasses: seq<Pass>)
    requires Chain(nodes, passes, busy, target)
    requires NodeMove(nodes[|passes|], m, pass, busy, target) || m == nodes[|passes|]
    ensures Chain(moreNodes, morePasses, busy, target) && moreNodes[0] == nodes[0] && moreNodes[|morePasses|] == m
  {
    hide NodeMove;
    if m == nodes[|passes|] {
      moreNodes, morePasses := nodes, passes;
    } else {
      moreNodes, morePasses := nodes + [m], passes + [pass];
    }
  }

  /** `areOtherOperationsInProgress`, over the nodes as the API lists them. */
  method OtherOperationsInProgress(s: State, items: seq<Name>, x: Name) returns (found: bool)
    requires Answer(s, items, None)
    ensures found <==> OthersActive(s, x)
  {
    for i := 0 to |items|
      invariant forall j :: 0 <= j < i ==> items[j] == x || NodeOf(s, items[j]).op.None? || !Active(PhaseOf(NodeOf(s, items[j])))
    {
      if items[i] != x && NodeOf(s, items[i]).op.Some? && Active(PhaseOf(NodeOf(s, items[i]))) { return true; }
    }
    found := false;
    forall y | y in s.members && y != x ensures NodeOf(s, y).op.None? || !Active(PhaseOf(NodeOf(s, y))) {
      assert Wanted(s, y, None);
    }
  }
}
