/** A release is installed only on a node that was drained first, unless Kubernetes did not run there. */
module UpgradeDrains {
  import opened Types
  import opened NodeSteps
  import opened Protocol

  /** From the choice of the installation on to the end of the OS upgrade. */
  predicate Installing(p: Phase) {
    || p.UpgradePreflight? || p.Upgrade113ImagePull? || p.Upgrade113Upgrade? || p.UpgradeLegacyUpgrade?
    || p.UpgradeVerifying? || p.UpgradeUncordon?
  }

  /** An OS upgrade of its own is spared the drain where Kubernetes was not ready; that within an Apply is not. */
  predicate InstallInv(n: Node, t: Trail) {
    n.op.Some? && !n.op.value.job.unsafe && Installing(n.op.value.phase) &&
    (n.op.value.job.kind.Apply? || (n.op.value.job.kind.Upgrade? && n.k8sReady == Yes)) ==>
      n.op.value.id in t.drained
  }

  lemma UpgradeKeepsInstallInv(n: Node, m: Node, d: Deed, t: Trail)
    requires n.op.Some? && UpgradeMove(n, m, d) && (KindOf(n).Upgrade? || IsUpgradePhase(PhaseOf(n))) && InstallInv(n, t)
    ensures InstallInv(m, RecordDeed(t, n.op.value, d))
  {
  }

  lemma HandlerKeepsInstallInv(n: Node, m: Node, d: Deed, busy: bool, target: nat, t: Trail)
    requires n.op.Some? && HandlerMove(n, m, d, busy, target) && InstallInv(n, t)
    ensures InstallInv(m, RecordDeed(t, n.op.value, d))
  {
    HandlerKeepsFrame(n, m, d, busy, target);
    hide ComponentMove, PowerMove, ResetMove, BootstrapMove, UpgradeMove;
    if !busy && (KindOf(n).Upgrade? || (KindOf(n).Apply? && IsUpgradePhase(PhaseOf(n)))) {
      UpgradeKeepsInstallInv(n, m, d, t);
    }
  }

  lemma PassKeepsInstallInv(n: Node, m: Node, pass: Pass, busy: bool, target: nat, t: Trail)
    requires NodeMove(n, m, pass, busy, target) && InstallInv(n, t)
    ensures InstallInv(m, Record(t, n, pass))
  {
    hide HandlerMove;
    match pass
    case Upkeep => UpkeepKeepsIdentity(n, m, target);
    case Start(seen, d) => HandlerKeepsInstallInv(seen, m, d, busy, target, RecordStart(t, n, seen));
    case Run(d) => HandlerKeepsInstallInv(n, m, d, busy, target, t);
  }

  ghost predicate InstallHistory(s: State) { forall x :: x in s.members ==> InstallInv(NodeOf(s, x), TrailOf(s, x)) }

  lemma StepKeepsInstallHistory(s: State, a: Action, t: State)
    requires Step(s, a, t) && InstallHistory(s)
    ensures InstallHistory(t)
  {
    hide Step, NodeMove, AtEntry, Record;
    forall x | x in t.members ensures InstallInv(NodeOf(t, x), TrailOf(t, x)) {
      StepFate(s, a, t, x);
      if a.NodePass? && a.name == x && x in s.members && t.members[x] != s.members[x] {
        hide InstallInv;
        PassKeepsInstallInv(NodeOf(s, x), NodeOf(t, x), a.pass, OthersActive(s, x), s.target, TrailOf(s, x));
      }
    }
  }

  /**
   * In every run: a safe OS upgrade that has got as far as choosing its installation had a full drain
   * pass on a node where Kubernetes was ready, and the one within an Apply had it on every node.
   */
  lemma {:induction false} InstallsAreDrained(states: seq<State>, actions: seq<Action>, k: nat)
    requires IsRun(states, actions) && k < |states| && InstallHistory(states[0])
    ensures InstallHistory(states[k])
  {
    hide Step;
    if k > 0 {
      InstallsAreDrained(states, actions, k - 1);
      StepKeepsInstallHistory(states[k - 1], actions[k - 1], states[k]);
    }
  }
}
