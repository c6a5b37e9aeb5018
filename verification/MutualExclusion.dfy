/** At most one node of a cluster is in the middle of an operation other than Provision. */
module MutualExclusion {
  import opened Types
  import opened NodeSteps
  import opened Protocol

  predicate Holds(n: Node) {
    && n.op.Some? && !n.op.value.job.kind.Provision?
    && !n.op.value.phase.Pending? && !n.op.value.phase.Done? && !n.op.value.phase.Failed?
  }

  ghost predicate Exclusive(s: State) {
    forall x, y :: x in s.members && y in s.members && Holds(NodeOf(s, x)) && Holds(NodeOf(s, y)) ==> x == y
  }

  /** A node comes to hold the cluster only by a pass of its own made while no other node was active. */
  lemma AcquiringNeedsQuiet(s: State, a: Action, t: State, x: Name)
    requires Step(s, a, t) && x in t.members && Holds(NodeOf(t, x))
    ensures x in s.members
    ensures !Holds(NodeOf(s, x)) ==> a.NodePass? && a.name == x && !OthersActive(s, x)
  {
    hide Step, NodeMove;
    StepFate(s, a, t, x);
    if a.NodePass? && a.name == x && x in s.members && t.members[x] != s.members[x] {
      PassFacts(NodeOf(s, x), NodeOf(t, x), a.pass, OthersActive(s, x), s.target);
    }
  }

  lemma StepKeepsExclusive(s: State, a: Action, t: State)
    requires Exclusive(s) && Step(s, a, t)
    ensures Exclusive(t)
  {
    hide Step;
    forall x, y | x in t.members && y in t.members && Holds(NodeOf(t, x)) && Holds(NodeOf(t, y))
      ensures x == y
    {
      AcquiringNeedsQuiet(s, a, t, x);
      AcquiringNeedsQuiet(s, a, t, y);
    }
  }

  /**
   * Whatever users, the cluster controller, deletions and Provision operations interleave, no two
   * nodes are ever both in an active phase of a non-Provision operation.
   */
  lemma {:induction false} NeverTwoHolders(states: seq<State>, actions: seq<Action>, k: nat)
    requires IsRun(states, actions) && k < |states| && Exclusive(states[0])
    ensures Exclusive(states[k])
  {
    hide Step;
    if k > 0 {
      NeverTwoHolders(states, actions, k - 1);
      StepKeepsExclusive(states[k - 1], actions[k - 1], states[k]);
    }
  }
}
