/**
 * What stopping the operator in the middle of a pass does to the pass that follows: exactly which
 * stops are harmless, and what becomes of an operation after each of the others.
 */
module Restarts {
  import opened Types
  import opened NodeSteps
  import opened Protocol
  import opened NodeCycles
  import opened NodePhases

  // ---------------------------------------------------------------- which stops are harmless

  /** Where a pass with all its writes leads: behind a status pass while Pending, straight on afterwards. */
  function PassNext(n: Node, f: Findings, a: Answers, target: nat): Phase
    requires n.op.Some?
  {
    HandlerNext(if PhaseOf(n).Pending? then Seen(n, f, target) else n, a)
  }

  /** A pass over an unfinished operation ended, for whatever reason, before it wrote another phase. */
  predicate Stopped(n: Node, m: Node, pass: Pass, target: nat) {
    && n.op.Some? && !Complete(PhaseOf(n)) && !KindOf(n).Provision?
    && n.versions == Defaulted(n.versions, n.role, target)
    && NodeMove(n, m, pass, false, target) && m.op == n.op
  }

  /** The next pass goes where it would have gone without the stop, whatever it is told from outside. */
  ghost predicate Harmless(n: Node, m: Node, target: nat)
    requires n.op.Some? && m.op.Some?
  {
    forall f, a :: PassNext(m, f, a, target) == PassNext(n, f, a, target)
  }

  /** What a pass did last: recorded a boot, recorded a version, or had a configuration accepted. */
  predicate Derails(n: Node, m: Node)
    requires n.op.Some?
  {
    var k, p := KindOf(n), PhaseOf(n);
    || ((k.Apply? || k.Upgrade?) && p.UpgradeVerifying? && m.bootID != n.bootID)
    || (k.ComponentUpgrade? && p.Pending? && m.versions != n.versions)
    || ((k.Apply? || (k.ComponentUpgrade? && n.op.value.job.component.Kubelet?)) && p.Applying? && m.holds != n.holds)
  }

  /** The machine looks at what the node's machine holds. */
  predicate LooksAtConfig(n: Node)
    requires n.op.Some?
  {
    var k, p := KindOf(n), PhaseOf(n);
    || (p.Pending? && (k.Apply? || k.ComponentUpgrade?))
    || (p.Applying? && (k.Apply? || (k.ComponentUpgrade? && n.op.value.job.component.Kubelet?)))
  }

  /** All that the next phase depends on. */
  predicate SameOutlook(n: Node, m: Node)
    requires n.op.Some?
  {
    && m.op == n.op
    && (KindOf(n).Reset? ||
        (&& m.role == n.role && m.boot == n.boot
         && (LooksAtConfig(n) ==> InSync(m) == InSync(n))
         && (!PhaseOf(n).Pending? ==> m.bootID == n.bootID && m.k8sReady == n.k8sReady && m.unschedulable == n.unschedulable)
         && (PhaseOf(n).Applying? ==> m.cordoned == n.cordoned)))
  }

  /** The same, once the status has been refreshed. */
  predicate SameView(n: Node, m: Node)
    requires n.op.Some?
  {
    && SameOutlook(n, m)
    && (!KindOf(n).Reset? ==> m.bootID == n.bootID && m.k8sReady == n.k8sReady)
    && (PhaseOf(n).Pending? && LooksAtConfig(n) ==> m.configInSync == n.configInSync)
  }

  lemma SameUpgradeNext(n: Node, m: Node, a: Answers)
    requires n.op.Some? && SameView(n, m) && !KindOf(n).Reset?
    ensures UpgradeNext(m, a) == UpgradeNext(n, a)
  {
  }

  lemma SameApplyNext(n: Node, m: Node, a: Answers)
    requires n.op.Some? && SameView(n, m) && KindOf(n).Apply?
    ensures ApplyNext(m, a) == ApplyNext(n, a)
  {
    hide UpgradeNext;
    SameUpgradeNext(n, m, a);
  }

  lemma SameComponentNext(n: Node, m: Node, a: Answers)
    requires n.op.Some? && SameView(n, m) && KindOf(n).ComponentUpgrade?
    ensures ComponentNext(m, a) == ComponentNext(n, a)
  {
  }

  lemma SamePowerNext(n: Node, m: Node, a: Answers)
    requires n.op.Some? && SameView(n, m)
    ensures !KindOf(n).Reset? ==> PowerNext(m, a) == PowerNext(n, a)
    ensures ResetNext(m, a) == ResetNext(n, a) && BootstrapNext(m, a) == BootstrapNext(n, a)
  {
  }

  lemma SameHandlerNext(n: Node, m: Node, a: Answers)
    requires n.op.Some? && SameView(n, m)
    ensures HandlerNext(m, a) == HandlerNext(n, a)
  {
    SamePowerNext(n, m, a);
    if KindOf(n).Upgrade? { SameUpgradeNext(n, m, a); }
    if KindOf(n).Apply? { SameApplyNext(n, m, a); }
    if KindOf(n).ComponentUpgrade? { SameComponentNext(n, m, a); }
    hide UpgradeNext, ApplyNext, ComponentNext, PowerNext, ResetNext, BootstrapNext;
  }

  lemma SameOutlookIsHarmless(n: Node, m: Node, target: nat)
    requires n.op.Some? && SameOutlook(n, m)
    ensures Harmless(n, m, target)
  {
    hide HandlerNext;
    forall f, a ensures PassNext(m, f, a, target) == PassNext(n, f, a, target) {
      if PhaseOf(n).Pending? { SameHandlerNext(Seen(n, f, target), Seen(m, f, target), a); } else { SameHandlerNext(n, m, a); }
    }
  }

  lemma StartKeepsOutlook(n: Node, seen: Node, m: Node, d: Deed, target: nat)
    requires n.op.Some? && !KindOf(n).Provision? && PhaseOf(n).Pending? && FullStatusMove(n, seen, target)
    requires HandlerMove(seen, m, d, false, target) && m.op == n.op && !Derails(n, m)
    ensures SameOutlook(n, m)
  {
  }

  lemma RunKeepsOutlook(n: Node, m: Node, d: Deed, target: nat)
    requires n.op.Some? && !KindOf(n).Provision? && Active(PhaseOf(n))
    requires HandlerMove(n, m, d, false, target) && m.op == n.op && !Derails(n, m)
    ensures SameOutlook(n, m)
  {
  }

  /** Short of the three kinds of deeds, a stopped pass leaves the outlook as it was. */
  lemma StoppedKeepsOutlook(n: Node, m: Node, pass: Pass, target: nat)
    requires Stopped(n, m, pass, target) && !Derails(n, m)
    ensures SameOutlook(n, m)
  {
    hide HandlerMove, Derails;
    match pass
    case Upkeep =>
    case Start(seen, d) => StartKeepsOutlook(n, seen, m, d, target);
    case Run(d) => RunKeepsOutlook(n, m, d, target);
  }

  const AllWell := Findings(true, true, true, true, true, true, false, true, true, true)

  lemma RecordedBootDerails(n: Node, m: Node, pass: Pass, target: nat)
    requires Stopped(n, m, pass, target) && (KindOf(n).Apply? || KindOf(n).Upgrade?) && PhaseOf(n).UpgradeVerifying? && m.bootID != n.bootID
    ensures PassNext(m, AllWell, Granted, target).UpgradeVerifying? && PassNext(n, AllWell, Granted, target).UpgradeUncordon?
  {
    hide ComponentMove, PowerMove, ResetMove, BootstrapMove;
  }

  /** The version was recorded because the node was in sync, and now it is not. */
  lemma RecordedVersionDerails(n: Node, m: Node, pass: Pass, target: nat)
    requires Stopped(n, m, pass, target) && KindOf(n).ComponentUpgrade? && PhaseOf(n).Pending? && m.versions != n.versions
    ensures InSync(n) && !InSync(m)
    ensures PassNext(m, AllWell, Granted, target).Failed? && !PassNext(n, AllWell, Granted, target).Failed?
  {
    hide ApplyMove, UpgradeMove, PowerMove, ResetMove, BootstrapMove;
  }

  lemma AcceptedConfigDerails(n: Node, m: Node, pass: Pass, target: nat)
    requires Stopped(n, m, pass, target) && PhaseOf(n).Applying? && m.holds != n.holds
    requires KindOf(n).Apply? || (KindOf(n).ComponentUpgrade? && n.op.value.job.component.Kubelet?)
    ensures !InSync(n) && InSync(m)
    ensures PassNext(m, AllWell, Granted.(rebooted := true), target) != PassNext(n, AllWell, Granted.(rebooted := true), target)
  {
    hide UpgradeMove, PowerMove, ResetMove, BootstrapMove;
  }

  /**
   * Stopping the operator in the middle of a pass is harmless, that is, the next pass goes exactly
   * where it would have gone, whatever the world answers, if and only if the pass did not stop right
   * behind recording the boot ID of a verified OS upgrade, or behind recording the version of a component
   * about to be upgraded, or behind having a configuration accepted by an Apply or a kubelet upgrade.
   */
  lemma HarmlessIff(n: Node, m: Node, pass: Pass, target: nat)
    requires Stopped(n, m, pass, target)
    ensures Harmless(n, m, target) <==> !Derails(n, m)
  {
    hide NodeMove, PassNext, SameOutlook;
    if !Derails(n, m) {
      StoppedKeepsOutlook(n, m, pass, target);
      SameOutlookIsHarmless(n, m, target);
    } else if PhaseOf(n).UpgradeVerifying? {
      RecordedBootDerails(n, m, pass, target);
    } else if PhaseOf(n).Pending? {
      RecordedVersionDerails(n, m, pass, target);
    } else {
      AcceptedConfigDerails(n, m, pass, target);
    }
  }

  /**
   * For a Provision: harmless if and only if it did not stop right behind marking the node provisioned
   * on request, or behind having its configuration accepted.
   */
  lemma ProvisionHarmlessIff(n: Node, m: Node)
    requires n.op.Some? && KindOf(n).Provision? && !Complete(PhaseOf(n)) && ProvisionMove(n, m) && m.op == n.op
    ensures (forall a :: ProvisionNext(m, a) == ProvisionNext(n, a)) <==>
              !(|| (PhaseOf(n).Pending? && n.provisioned != Yes && m.provisioned == Yes)
                || (PhaseOf(n).Provisioning? && m.holds != n.holds))
  {
    if PhaseOf(n).Pending? && n.provisioned != Yes && m.provisioned == Yes {
      assert ProvisionNext(m, GrantedSite).Failed? && !ProvisionNext(n, GrantedSite).Failed?;
    }
    if PhaseOf(n).Provisioning? && m.holds != n.holds {
      assert ProvisionNext(m, GrantedSite).Failed? && !ProvisionNext(n, GrantedSite).Failed?;
    }
  }

  /** Stopping between the two writes of a skipped Provision fails it: the next pass finds the node provisioned already. */
  lemma StoppingFailsSkippedProvision(n: Node, k: Node)
    requires n.op.Some? && KindOf(n).Provision? && PhaseOf(n).Pending? && n.op.value.job.skip && n.provisioned != Yes
    ensures ProvisionMove(n, n.(provisioned := Yes))
    ensures ProvisionMove(n.(provisioned := Yes), k) ==> k == n.(provisioned := Yes) || (PhaseOf(k).Failed? && k.provisioned == Yes)
  {
  }

  /** Stopping behind the accepted configuration of a Provision fails it too: the machine is no longer in maintenance mode. */
  lemma StoppingFailsAcceptedProvision(n: Node, k: Node)
    requires n.op.Some? && KindOf(n).Provision? && PhaseOf(n).Provisioning? && n.op.value.job.hasAddress && n.holds.None?
    ensures var m := n.(holds := Some(n.versions));
            ProvisionMove(n, m) && (ProvisionMove(m, k) ==> k.op.Some? && (PhaseOf(k).Failed? || PhaseOf(k).Provisioning?))
  {
  }

  // ---------------------------------------------------------------- calls that are sent again

  /** The phases whose pass sends a call and fails if it is refused. KubeletReboot sends one too, but waits if refused. */
  predicate FailsIfRefused(k: OpKind, p: Phase) {
    || (p.Applying? && !k.Provision? && !k.Upgrade?)
    || ((k.Upgrade? || k.Apply?) && (p.Upgrade113ImagePull? || p.Upgrade113Upgrade? || p.UpgradeLegacyUpgrade?))
  }

  /**
   * A pass that stops behind its call sends it again. A machine that grants everything but that
   * repetition, as one that is bootstrapped, or being reset, does, makes the operation fail in exactly
   * these phases; in KubeletReboot it is waited for.
   */
  lemma RefusedRepetitionFailsIff(n: Node)
    requires n.op.Some? && !KindOf(n).Provision? && InMachine(KindOf(n), PhaseOf(n)) && Feasible(n)
    ensures HandlerNext(n, Granted.(accepted := false, needsReboot := false)).Failed? <==> FailsIfRefused(KindOf(n), PhaseOf(n))
    ensures KindOf(n).ComponentUpgrade? && PhaseOf(n).KubeletReboot? ==>
              HandlerNext(n, Granted.(accepted := false, needsReboot := false)).KubeletReboot?
  {
  }

  /** The calls on record are sent twice by a stop: the phase is left only by sending it again. */
  lemma StoppedCallIsRepeated(n: Node, m: Node, d: Deed, k: Node, e: Deed, target: nat)
    requires n.op.Some? && HandlerMove(n, m, d, false, target) && d.Called? && m.op == n.op
    requires HandlerMove(m, k, e, false, target) && k.op != m.op
    ensures e.Called?
  {
    hide ApplyMove, UpgradeMove, ComponentMove;
    HandlerKeepsFrame(n, m, d, false, target);
    CallsComeFrom(n, m, d, target);
  }

  lemma CallsComeFrom(n: Node, m: Node, d: Deed, target: nat)
    requires n.op.Some? && HandlerMove(n, m, d, false, target) && d.Called?
    ensures PhaseOf(n).Applying? && (KindOf(n).Bootstrap? || KindOf(n).Reboot? || KindOf(n).Shutdown? || KindOf(n).Reset?)
  {
  }

  // ---------------------------------------------------------------- an OS upgrade that forgot its reboot

  /** The OS upgrade re-recorded the boot ID, but the write of the next phase never happened. */
  predicate Stranded(n: Node) {
    n.op.Some? && (KindOf(n).Apply? || KindOf(n).Upgrade?) && PhaseOf(n).UpgradeVerifying? && n.bootID == n.boot
  }

  /** Stopping between the two writes of a passed verification strands it: the reboot is forgotten. */
  lemma StoppingStrandsVerification(n: Node)
    requires n.op.Some? && (KindOf(n).Apply? || KindOf(n).Upgrade?) && PhaseOf(n).UpgradeVerifying? && n.boot != n.bootID
    ensures UpgradeMove(n, n.(bootID := n.boot), Nothing) && Stranded(n.(bootID := n.boot))
  {
  }

  /** A stranded verification never passes: short of another reboot, its only way out is Failed. */
  lemma StrandedOnlyFails(n: Node, m: Node, pass: Pass, busy: bool, target: nat)
    requires Stranded(n) && NodeMove(n, m, pass, busy, target)
    ensures Stranded(m) || (m.op.Some? && PhaseOf(m).Failed?)
  {
  }

  lemma {:induction false} StrandedForGood(states: seq<State>, actions: seq<Action>, x: Name, id: nat, k: nat)
    requires IsRun(states, actions) && k < |states| && Keeps(states, x, id)
    requires Stranded(NodeOf(states[0], x)) && id < states[0].next
    requires forall i :: 0 <= i < |actions| ==> actions[i] != Reboots(x)
    ensures Stranded(NodeOf(states[k], x)) || PhaseOf(NodeOf(states[k], x)).Failed?
    ensures id < states[k].next
  {
    hide Step, NodeMove;
    if k > 0 {
      StrandedForGood(states, actions, x, id, k - 1);
      var s, a, t := states[k - 1], actions[k - 1], states[k];
      StepCounters(s, a, t);
      StepFate(s, a, t, x);
      if a.NodePass? && a.name == x && t.members[x] != s.members[x] {
        PassFacts(NodeOf(s, x), NodeOf(t, x), a.pass, OthersActive(s, x), s.target);
        if Stranded(NodeOf(s, x)) { StrandedOnlyFails(NodeOf(s, x), NodeOf(t, x), a.pass, OthersActive(s, x), s.target); }
      }
    }
  }

  // ---------------------------------------------------------------- a component upgrade that outran its configuration

  /** The version is on record, the phase is not: the machine holds the configuration of the version before. */
  predicate Doomed(n: Node, target: nat) {
    && n.op.Some? && KindOf(n).ComponentUpgrade? && PhaseOf(n).Pending? && !InSync(n)
    && n.versions == Defaulted(n.versions, n.role, target)
  }

  lemma StoppingDoomsComponentUpgrade(n: Node, m: Node, pass: Pass, target: nat)
    requires Stopped(n, m, pass, target) && KindOf(n).ComponentUpgrade? && PhaseOf(n).Pending? && m.versions != n.versions && 0 < target
    ensures Doomed(m, target)
  {
    RecordedVersionDerails(n, m, pass, target);
    hide ApplyMove, UpgradeMove, PowerMove, ResetMove, BootstrapMove;
  }

  /** Its next pass finds the node out of sync: it stays or fails. */
  lemma DoomedOnlyFails(n: Node, m: Node, pass: Pass, busy: bool, target: nat)
    requires Doomed(n, target) && NodeMove(n, m, pass, busy, target)
    ensures Doomed(m, target) || (m.op.Some? && PhaseOf(m).Failed?)
  {
    hide ApplyMove, UpgradeMove, PowerMove, ResetMove, BootstrapMove;
  }

  lemma {:induction false} DoomedForGood(states: seq<State>, actions: seq<Action>, x: Name, id: nat, k: nat)
    requires IsRun(states, actions) && k < |states| && Keeps(states, x, id)
    requires Doomed(NodeOf(states[0], x), states[0].target) && id < states[0].next
    requires forall i :: 0 <= i < |actions| && actions[i].ConfigChanges? ==> actions[i].name != x
    ensures Doomed(NodeOf(states[k], x), states[k].target) || PhaseOf(NodeOf(states[k], x)).Failed?
    ensures id < states[k].next
  {
    hide Step, Doomed;
    if k > 0 {
      DoomedForGood(states, actions, x, id, k - 1);
      var s, a, t := states[k - 1], actions[k - 1], states[k];
      StepCounters(s, a, t);
      assert IdOf(NodeOf(s, x)) == id && IdOf(NodeOf(t, x)) == id;
      if Doomed(NodeOf(s, x), s.target) { DoomedStep(s, a, t, x); } else { FailedStays(s, a, t, x); }
    }
  }

  lemma FailedStays(s: State, a: Action, t: State, x: Name)
    requires Step(s, a, t) && x in s.members && x in t.members && NodeOf(s, x).op.Some? && PhaseOf(NodeOf(s, x)).Failed?
    requires NodeOf(t, x).op.Some? && IdOf(NodeOf(t, x)) == IdOf(NodeOf(s, x)) < s.next
    ensures PhaseOf(NodeOf(t, x)).Failed?
  {
    hide Step, NodeMove, AtEntry;
    StepFate(s, a, t, x);
    if a.NodePass? && a.name == x && t.members[x] != s.members[x] {
      PassFacts(NodeOf(s, x), NodeOf(t, x), a.pass, OthersActive(s, x), s.target);
    }
  }

  lemma DoomedStep(s: State, a: Action, t: State, x: Name)
    requires Step(s, a, t) && x in s.members && x in t.members && Doomed(NodeOf(s, x), s.target) && IdOf(NodeOf(s, x)) < s.next
    requires NodeOf(t, x).op.Some? && IdOf(NodeOf(t, x)) == IdOf(NodeOf(s, x)) && (a.ConfigChanges? ==> a.name != x)
    ensures Doomed(NodeOf(t, x), s.target) || PhaseOf(NodeOf(t, x)).Failed?
  {
    hide Step, NodeMove, AtEntry;
    StepFate(s, a, t, x);
    if a.NodePass? && a.name == x && t.members[x] != s.members[x] {
      DoomedOnlyFails(NodeOf(s, x), NodeOf(t, x), a.pass, OthersActive(s, x), s.target);
    }
  }

  // ---------------------------------------------------------------- an Apply that skips its verification

  /** The configuration is in, the phase is not. */
  predicate Unverified(n: Node) { n.op.Some? && KindOf(n).Apply? && PhaseOf(n).Applying? && InSync(n) }

  /** Nothing asks for a reboot any more: no drain, no verification, and the cordon bit stays as it is. */
  lemma UnverifiedSkipsVerification(n: Node, m: Node, d: Deed, busy: bool, target: nat)
    requires Unverified(n) && HandlerMove(n, m, d, busy, target)
    ensures m.op.Some? && (Unverified(m) || PhaseOf(m).Done? || PhaseOf(m).Failed?) && m.cordoned == n.cordoned && !d.ApplyVerified?
  {
    hide UpgradeMove, ComponentMove, PowerMove, ResetMove, BootstrapMove;
  }

  // ---------------------------------------------------------------- upgrades that cannot be resumed

  /** From here, some answer of the world takes the upgrade past Pending. */
  ghost predicate GetsGoing(n: Node, target: nat)
    requires n.op.Some?
  {
    exists f, a :: var p := PassNext(n, f, a, target); !p.Pending? && !p.Failed?
  }

  /** A component upgrade gets past Pending exactly if its machine holds the configuration for the versions on record. */
  lemma GetsGoingIff(n: Node, target: nat)
    requires n.op.Some? && KindOf(n).ComponentUpgrade? && PhaseOf(n).Pending? && ComponentFits(n.op.value.job.component, n.role)
    ensures GetsGoing(n, target) <==> InSync(n)
  {
    if InSync(n) {
      var p := PassNext(n, AllWell, Granted, target);
      assert !p.Pending? && !p.Failed?;
    }
  }

  /** A disabled component has its version recorded, and no configuration applied. */
  lemma SkippingPutsOutOfSync(n: Node, m: Node, pass: Pass, target: nat)
    requires NodeMove(n, m, pass, false, target) && n.op.Some? && KindOf(n).ComponentUpgrade? && m.op.Some? && PhaseOf(m).Done?
    requires PhaseOf(n).Pending? && m.versions != n.versions
    ensures InSync(n) && !InSync(m)
  {
    hide ApplyMove, UpgradeMove, PowerMove, ResetMove, BootstrapMove;
  }

  /** Component upgrades are all that `x` gets, its machine is out of sync, and none of them is under way. */
  predicate Blocked(n: Node, target: nat) {
    && !InSync(n) && n.versions == Defaulted(n.versions, n.role, target)
    && n.op.Some? && KindOf(n).ComponentUpgrade? && (PhaseOf(n).Pending? || Complete(PhaseOf(n)))
  }

  /** Nobody touches the configuration of `x`, and only component upgrades are started on it. */
  predicate OnlyUpgrades(s: State, a: Action, x: Name) {
    && (a.ConfigChanges? ==> a.name != x) && a != Cleanup(x)
    && (a.NodeRequest? && a.name == x ==> a.job.kind.ComponentUpgrade?)
    && (a.StartEntry? && s.op.Some? && a.i < |s.op.value.plan| && s.op.value.plan[a.i].slot.node == x ==>
          s.op.value.plan[a.i].slot.job.kind.ComponentUpgrade?)
  }

  /** A pass leaves it blocked, and takes its operation nowhere but to Failed. */
  lemma BlockedPass(n: Node, m: Node, pass: Pass, busy: bool, target: nat)
    requires Blocked(n, target) && NodeMove(n, m, pass, busy, target)
    ensures Blocked(m, target) && (m.op == n.op || PhaseOf(m).Failed?)
  {
    hide ApplyMove, UpgradeMove, PowerMove, ResetMove, BootstrapMove;
  }

  lemma BlockedLanding(s: State, a: Action, t: State, x: Name)
    requires x in s.members && x in t.members && Landed(s, a, t, x) && OnlyUpgrades(s, a, x) && Blocked(NodeOf(s, x), s.target)
    ensures Blocked(NodeOf(t, x), s.target) && PhaseOf(NodeOf(t, x)).Pending?
  {
    hide Current;
  }

  lemma BlockedAlteration(n: Node, m: Node, target: nat)
    requires Blocked(n, target) && Altered(n, m) && m.holds == n.holds
    ensures Blocked(m, target) && m.op == n.op
  {
  }

  lemma BlockedStep(s: State, a: Action, t: State, x: Name)
    requires Step(s, a, t) && OnlyUpgrades(s, a, x) && x in s.members && x in t.members && Blocked(NodeOf(s, x), s.target)
    ensures Blocked(NodeOf(t, x), t.target)
    ensures NodeOf(t, x).op == NodeOf(s, x).op || PhaseOf(NodeOf(t, x)).Pending? || PhaseOf(NodeOf(t, x)).Failed?
  {
    StepCounters(s, a, t);
    hide Step, NodeMove, Blocked, Landed, Altered;
    StepFate(s, a, t, x);
    if t.members[x] != s.members[x] {
      if Landed(s, a, t, x) {
        BlockedLanding(s, a, t, x);
      } else if a.NodePass? {
        BlockedPass(NodeOf(s, x), NodeOf(t, x), a.pass, OthersActive(s, x), s.target);
      } else {
        BlockedAlteration(NodeOf(s, x), NodeOf(t, x), s.target);
      }
    }
  }

  /**
   * An upgrade cannot be resumed on a machine that a failed one, or a disabled component, has left out of
   * sync: until somebody brings it in sync again, no component upgrade on it, however often re-issued, gets
   * past Pending but by failing.
   */
  lemma {:induction false} BlockedForGood(states: seq<State>, actions: seq<Action>, x: Name, k: nat)
    requires IsRun(states, actions) && k < |states| && (forall i :: 0 <= i < |states| ==> x in states[i].members)
    requires Blocked(NodeOf(states[0], x), states[0].target)
    requires forall i :: 0 <= i < |actions| ==> OnlyUpgrades(states[i], actions[i], x)
    ensures Blocked(NodeOf(states[k], x), states[k].target)
    ensures NodeOf(states[k], x).op == NodeOf(states[0], x).op || PhaseOf(NodeOf(states[k], x)).Pending? || PhaseOf(NodeOf(states[k], x)).Failed?
  {
    hide Step, Blocked, OnlyUpgrades;
    if k > 0 {
      BlockedForGood(states, actions, x, k - 1);
      BlockedStep(states[k - 1], actions[k - 1], states[k], x);
    }
  }
}
