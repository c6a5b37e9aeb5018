/** A deleted node is wiped before it is let go, and only once. */
module CleanUp {
  import opened Types
  import opened NodeSteps
  import opened Protocol

  /** A Reset that wipes STATE has come to its end on this node. */
  predicate Wiped(n: Node) {
    n.op.Some? && n.op.value.job.kind.Reset? && n.op.value.job.wipesState && n.op.value.phase.Done?
  }

  predicate LetGo(n: Node) { Wiped(n) ==> !n.finalizer && n.provisioned == No }

  ghost predicate AllLetGo(s: State) { forall x :: x in s.members ==> LetGo(NodeOf(s, x)) }

  /** The clean-up is a safe Reset that wipes STATE, of a deleted node that still has its finalizer and nothing else to do. */
  lemma CleanupWipes(s: State, x: Name, t: State)
    requires Step(s, Cleanup(x), t)
    ensures x in s.members && x in t.members
    ensures var n, m := NodeOf(s, x), NodeOf(t, x);
            && n.deleting && n.finalizer && n.provisioned == Yes
            && (n.op.None? || n.op.value.phase.Done? || n.op.value.phase.Failed?)
            && m.op.Some? && m.op.value.phase.Pending?
            && m.op.value.job.kind.Reset? && m.op.value.job.wipesState && !m.op.value.job.unsafe
  {
  }

  lemma HandlerKeepsLetGo(n: Node, m: Node, d: Deed, busy: bool, target: nat)
    requires n.op.Some? && !PhaseOf(n).Done? && HandlerMove(n, m, d, busy, target)
    ensures LetGo(m)
  {
    HandlerKeepsFrame(n, m, d, busy, target);
    if busy || !KindOf(n).Reset? { hide HandlerMove; } else { assert ResetMove(n, m, d); hide HandlerMove; }
  }

  lemma UpkeepKeepsLetGo(n: Node, m: Node, target: nat)
    requires UpkeepMove(n, m, target) && LetGo(n)
    ensures LetGo(m)
  {
    UpkeepKeepsIdentity(n, m, target);
    hide ProvisionMove, Defaulted;
  }

  lemma PassKeepsLetGo(n: Node, m: Node, pass: Pass, busy: bool, target: nat)
    requires NodeMove(n, m, pass, busy, target) && LetGo(n)
    ensures LetGo(m)
  {
    hide HandlerMove, LetGo, UpkeepMove;
    match pass
    case Upkeep => UpkeepKeepsLetGo(n, m, target);
    case Start(seen, d) => HandlerKeepsLetGo(seen, m, d, busy, target);
    case Run(d) => HandlerKeepsLetGo(n, m, d, busy, target);
  }

  lemma StepKeepsLetGo(s: State, a: Action, t: State)
    requires Step(s, a, t) && AllLetGo(s)
    ensures AllLetGo(t)
  {
    hide Step, NodeMove, AtEntry;
    forall x | x in t.members ensures LetGo(NodeOf(t, x)) {
      StepFate(s, a, t, x);
      if a.NodePass? && a.name == x && x in s.members && t.members[x] != s.members[x] {
        PassKeepsLetGo(NodeOf(s, x), NodeOf(t, x), a.pass, OthersActive(s, x), s.target);
      }
    }
  }

  /**
   * In every run: once a wiping Reset of a node is Done, the node is unprovisioned and may go, and as long
   * as no other operation is put in its place the clean-up does not start over.
   */
  lemma {:induction false} CleansUpOnce(states: seq<State>, actions: seq<Action>, k: nat)
    requires IsRun(states, actions) && k < |states| && AllLetGo(states[0])
    ensures AllLetGo(states[k])
    ensures forall x :: x in states[k].members && Wiped(NodeOf(states[k], x)) ==>
              && !NodeOf(states[k], x).finalizer && NodeOf(states[k], x).provisioned == No
              && (k < |actions| ==> actions[k] != Cleanup(x))
  {
    hide Step;
    if k > 0 {
      CleansUpOnce(states, actions, k - 1);
      StepKeepsLetGo(states[k - 1], actions[k - 1], states[k]);
    }
    if k < |actions| && actions[k].Cleanup? { CleanupWipes(states[k], actions[k].name, states[k + 1]); }
  }
}
