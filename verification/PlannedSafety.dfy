/**
 * What the cluster controller plans is gentle: as long as nobody asks for an unsafe operation on a
 * node, there is none, and no machine is taken down without a drain.
 */
module PlannedSafety {
  import opened Types
  import opened NodeSteps
  import opened Protocol
  import opened PlanShape
  import opened NodeHistory
  import opened NodeCycles

  /** Users ask for no unsafe operation. Whatever else they ask for, and the clean-up of deleted nodes, goes. */
  predicate Gentle(a: Action) { a.NodeRequest? ==> !a.job.unsafe }

  predicate SafePlan(o: Option<ClusterOp>) { o.Some? ==> forall j :: 0 <= j < |o.value.plan| ==> !o.value.plan[j].slot.job.unsafe }

  predicate SafeMember(w: Member) {
    && (w.node.op.Some? ==> !w.node.op.value.job.unsafe)
    && (forall c :: c in w.trail.calls ==> !c.unsafe)
  }

  ghost predicate SafeMembers(s: State) { forall x :: x in s.members ==> SafeMember(s.members[x]) }

  lemma PassKeepsSafe(w: Member, m: Node, pass: Pass, busy: bool, target: nat)
    requires SafeMember(w) && NodeMove(w.node, m, pass, busy, target)
    ensures SafeMember(Member(m, Record(w.trail, w.node, pass), w.sawBootstrap))
  {
    PassFacts(w.node, m, pass, busy, target);
    hide NodeMove;
  }

  lemma LandedIsSafe(s: State, a: Action, t: State, x: Name)
    requires x in s.members && x in t.members && Landed(s, a, t, x) && Gentle(a) && SafePlan(s.op) && SafeMember(s.members[x])
    ensures SafeMember(t.members[x])
  {
    hide Current;
  }

  lemma MembersStaySafe(s: State, a: Action, t: State)
    requires Step(s, a, t) && Gentle(a) && SafePlan(s.op) && SafeMembers(s)
    ensures SafeMembers(t)
  {
    hide Step, NodeMove, Landed, Record, SafePlan;
    forall x | x in t.members ensures SafeMember(t.members[x]) {
      StepFate(s, a, t, x);
      if x in s.members && t.members[x] != s.members[x] {
        if Landed(s, a, t, x) {
          LandedIsSafe(s, a, t, x);
        } else if a.NodePass? {
          hide SafeMember;
          PassKeepsSafe(s.members[x], NodeOf(t, x), a.pass, OthersActive(s, x), s.target);
        }
      }
    }
  }

  /** No plan asks for an unsafe operation. */
  lemma PlansAreSafe(s: State, a: Action, t: State)
    requires Step(s, a, t) && SafePlan(s.op)
    ensures SafePlan(t.op)
  {
    if a.Plan? {
      hide Lists, Refused;
    } else {
      RunnerKeepsNodes(s, a, t);
      hide Step;
    }
  }

  /** Nothing unsafe is planned, under way, or was ever called for. */
  ghost predicate GentleSoFar(s: State) { SafePlan(s.op) && SafeMembers(s) && DrainHistory(s) }

  lemma {:induction false} StaysGentle(states: seq<State>, actions: seq<Action>, k: nat)
    requires IsRun(states, actions) && k < |states| && GentleSoFar(states[0])
    requires forall i :: 0 <= i < |actions| ==> Gentle(actions[i])
    ensures GentleSoFar(states[k])
  {
    hide Step, Gentle, SafePlan, SafeMembers, DrainHistory;
    if k > 0 {
      StaysGentle(states, actions, k - 1);
      PlansAreSafe(states[k - 1], actions[k - 1], states[k]);
      MembersStaySafe(states[k - 1], actions[k - 1], states[k]);
      DrainStep(states[k - 1], actions[k - 1], states[k]);
    }
  }

  /**
   * In every such run, whatever is requested of the cluster: every Reboot, Shutdown and Reset call that
   * was ever sent to a machine came from an operation that had cordoned the node and had every listed pod
   * accepted.
   */
  lemma EveryCallIsDrained(states: seq<State>, actions: seq<Action>, k: nat, x: Name, c: Call)
    requires IsRun(states, actions) && k < |states| && GentleSoFar(states[0])
    requires forall i :: 0 <= i < |actions| ==> Gentle(actions[i])
    requires x in states[k].members && c in TrailOf(states[k], x).calls
    ensures c.kind.Reboot? || c.kind.Shutdown? || c.kind.Reset? ==> c.id in TrailOf(states[k], x).drained
  {
    hide Step, Gentle;
    StaysGentle(states, actions, k);
    assert SafeMember(states[k].members[x]);
    assert DrainInv(NodeOf(states[k], x), TrailOf(states[k], x));
  }

  /** And every Apply in it ends: it changes phase at most twelve times, unless someone else takes the cordon away. */
  lemma EveryApplyEnds(states: seq<State>, actions: seq<Action>, x: Name, id: nat, k: nat)
    requires IsRun(states, actions) && k < |states| && GentleSoFar(states[0]) && Keeps(states, x, id) && id < states[0].next
    requires forall i :: 0 <= i < |actions| ==> Gentle(actions[i]) && actions[i] != CordonChanges(x, false)
    requires KindOf(NodeOf(states[0], x)).Apply?
    ensures PhaseChanges(states, x, k) <= 12
  {
    hide Step;
    assert SafeMember(states[0].members[x]);
    SafeApplyEnds(states, actions, x, id, k);
  }
}
