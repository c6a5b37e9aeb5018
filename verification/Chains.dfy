/** Passes of one node's controller, one after the other. */
module Chains {
  import opened Types
  import opened NodeSteps
  import opened Protocol

  ghost predicate Chain(nodes: seq<Node>, passes: seq<Pass>, busy: bool, target: nat) {
    && |nodes| == |passes| + 1
    && forall i :: 0 <= i < |passes| ==> NodeMove(nodes[i], nodes[i + 1], passes[i], busy, target)
  }

  /** Such a chain is a run of the protocol, in which only this node's controller acts. */
  lemma {:induction false} ChainIsRun(s: State, x: Name, nodes: seq<Node>, passes: seq<Pass>) returns (states: seq<State>, actions: seq<Action>)
    requires x in s.members && Chain(nodes, passes, OthersActive(s, x), s.target) && nodes[0] == NodeOf(s, x)
    ensures IsRun(states, actions) && states[0] == s && |actions| == |passes|
    ensures forall i :: 0 <= i < |passes| ==> actions[i] == NodePass(x, passes[i])
    ensures x in states[|passes|].members && NodeOf(states[|passes|], x) == nodes[|passes|]
    ensures states[|passes|].members == s.members[x := states[|passes|].members[x]] && states[|passes|] == s.(members := states[|passes|].members, doneAt := states[|passes|].doneAt)
    decreases |passes|
  {
    hide NodeMove, Record;
    if passes == [] {
      states, actions := [s], [];
    } else {
      var k := |passes| - 1;
      states, actions := ChainIsRun(s, x, nodes[..k + 1], passes[..k]);
      var t := states[k];
      SameOthers(s, t, x);
      var m := nodes[k + 1];
      var trail := Record(TrailOf(t, x), NodeOf(t, x), passes[k]);
      var u := WithMember(t, x, Member(m, trail, t.members[x].sawBootstrap))
               .(doneAt := MarkDone(t.doneAt, x, NodeOf(t, x), m, trail, t.next));
      assert NodeMove(nodes[k], nodes[k + 1], passes[k], OthersActive(s, x), s.target);
      assert Step(t, NodePass(x, passes[k]), u) by { assert PassStep(t, u, x, passes[k]); }
      hide Step;
      states, actions := states + [u], actions + [NodePass(x, passes[k])];
    }
  }

  lemma RunsJoin(states: seq<State>, actions: seq<Action>, more: seq<State>, moreActions: seq<Action>)
    requires IsRun(states, actions) && IsRun(more, moreActions) && more[0] == states[|actions|]
    ensures IsRun(states + more[1..], actions + moreActions)
  {
    hide Step;
    var all, acts := states + more[1..], actions + moreActions;
    forall i | 0 <= i < |acts| ensures Step(all[i], acts[i], all[i + 1]) {
      if i >= |actions| {
        var j := i - |actions|;
        assert acts[i] == moreActions[j] && all[i] == more[j] && all[i + 1] == more[j + 1];
      }
    }
  }
}
