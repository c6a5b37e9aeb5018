/**
 * What becomes of the two central accounts when passes are not atomic after all.
 *
 * A phase is written to whatever operation the node has by then: a pass that is under way while
 * another operation is put in place writes its phase onto that one. Here such late writes are events
 * of a run, and it is stated exactly which of them the accounts survive.
 */
module LateWrites {
  import opened Types
  import opened NodeSteps
  import opened Protocol
  import opened PlanShape
  import opened NodeHistory
  import opened OwnInstance

  datatype Event = Acts(action: Action) | Late(name: Name, phase: Phase)

  function LateWrite(n: Node, p: Phase): Node
    requires n.op.Some?
  {
    n.(op := Some(n.op.value.(phase := p)))
  }

  predicate LateStep(s: State, t: State, x: Name, p: Phase) {
    && x in s.members && NodeOf(s, x).op.Some?
    && t == WithMember(s, x, s.members[x].(node := LateWrite(NodeOf(s, x), p)))
  }

  ghost predicate Happens(s: State, e: Event, t: State) {
    match e
    case Acts(a) => Step(s, a, t)
    case Late(x, p) => LateStep(s, t, x, p)
  }

  ghost predicate IsEventRun(states: seq<State>, events: seq<Event>) {
    && |states| == |events| + 1
    && forall i :: 0 <= i < |events| ==> Happens(states[i], events[i], states[i + 1])
  }

  // ---------------------------------------------------------------- a drain before every call

  /** Anything but Applying on a safe operation that has not been drained. */
  predicate SparesDrain(s: State, x: Name, p: Phase)
    requires x in s.members && NodeOf(s, x).op.Some?
  {
    var n := NodeOf(s, x);
    p.Applying? && Disruptive(KindOf(n)) && !n.op.value.job.unsafe ==> IdOf(n) in TrailOf(s, x).drained
  }

  /** The late writes that the account of drains survives. */
  lemma LateDrainIff(s: State, t: State, x: Name, p: Phase)
    requires DrainHistory(s) && LateStep(s, t, x, p)
    ensures DrainHistory(t) <==> SparesDrain(s, x, p)
  {
    assert DrainInv(NodeOf(s, x), TrailOf(s, x));
    hide CallsDrained;
    if SparesDrain(s, x, p) {
      forall y | y in t.members ensures DrainInv(NodeOf(t, y), TrailOf(t, y)) {
        if y != x { assert DrainInv(NodeOf(s, y), TrailOf(s, y)); }
      }
    } else {
      assert !DrainInv(NodeOf(t, x), TrailOf(t, x));
    }
  }

  ghost predicate DrainSparing(s: State, e: Event) {
    e.Late? ==> e.name in s.members && NodeOf(s, e.name).op.Some? && SparesDrain(s, e.name, e.phase)
  }

  lemma {:induction false} DrainsOverEvents(states: seq<State>, events: seq<Event>, k: nat)
    requires IsEventRun(states, events) && k < |states| && DrainHistory(states[0])
    requires forall i :: 0 <= i < |events| ==> DrainSparing(states[i], events[i])
    ensures DrainHistory(states[k])
  {
    hide Step, DrainHistory, LateStep, SparesDrain;
    if k > 0 {
      DrainsOverEvents(states, events, k - 1);
      var s, e, t := states[k - 1], events[k - 1], states[k];
      assert Happens(s, e, t) && DrainSparing(s, e);
      match e
      case Acts(a) => DrainStep(s, a, t);
      case Late(x, p) => LateDrainIff(s, t, x, p);
    }
  }

  /** In runs with such late writes, a safe operation still calls only with a drain of its own behind it. */
  lemma CallIsDrained(states: seq<State>, events: seq<Event>, k: nat, x: Name)
    requires IsEventRun(states, events) && k < |events| && DrainHistory(states[0])
    requires forall i :: 0 <= i < |events| ==> DrainSparing(states[i], events[i])
    requires events[k].Acts? && SendsSafeCall(states[k], events[k].action, x)
    ensures IdOf(NodeOf(states[k], x)) in TrailOf(states[k], x).drained
  {
    hide DrainSparing;
    DrainsOverEvents(states, events, k);
    var s, a, t := states[k], events[k].action, states[k + 1];
    assert Happens(s, events[k], t);
    assert PassStep(s, t, x, a.pass);
    hide Step, NodeMove;
    CallsLeaveFromApplying(NodeOf(s, x), NodeOf(t, x), a.pass, OthersActive(s, x), s.target);
  }

  /** And with any other: a late Applying on a safe operation that is still Pending has its call sent without a drain. */
  lemma LateApplyingSkipsDrain(s: State, x: Name) returns (states: seq<State>, events: seq<Event>)
    requires x in s.members && Operable(NodeOf(s, x)) && !OthersActive(s, x)
    requires var n := NodeOf(s, x);
             && n.op.Some? && Disruptive(KindOf(n)) && !n.op.value.job.unsafe && PhaseOf(n).Pending? && IdOf(n) !in TrailOf(s, x).drained
    ensures IsEventRun(states, events) && |events| == 2 && states[0] == s && events[0] == Late(x, Applying)
    ensures x in states[2].members && !CallsDrained(TrailOf(states[2], x))
  {
    var m := LateWrite(NodeOf(s, x), Applying);
    var t := WithMember(s, x, s.members[x].(node := m));
    SameOthers(s, t, x);
    assert NodeMove(m, m, Run(Called), false, s.target);
    var u := CalledAgain(t, x);
    hide Step, NodeMove, OthersActive;
    states, events := [s, t, u], [Late(x, Applying), Acts(NodePass(x, Run(Called)))];
  }

  lemma CalledAgain(s: State, x: Name) returns (t: State)
    requires x in s.members && NodeOf(s, x).op.Some? && !OthersActive(s, x)
    requires NodeMove(NodeOf(s, x), NodeOf(s, x), Run(Called), false, s.target)
    ensures Step(s, NodePass(x, Run(Called)), t) && x in t.members
    ensures TrailOf(t, x) == TrailOf(s, x).(calls := TrailOf(s, x).calls + {Call(KindOf(NodeOf(s, x)), IdOf(NodeOf(s, x)), NodeOf(s, x).op.value.job.unsafe)})
  {
    hide NodeMove;
    var n := NodeOf(s, x);
    t := WithMember(s, x, Member(n, Record(TrailOf(s, x), n, Run(Called)), s.members[x].sawBootstrap));
    assert PassStep(s, t, x, Run(Called));
  }

  // ---------------------------------------------------------------- entries and their own operations

  /** Done neither comes early nor goes away, and no phase comes without what it presupposes. */
  predicate SparesOwn(s: State, x: Name, p: Phase)
    requires x in s.members && NodeOf(s, x).op.Some?
  {
    var n := NodeOf(s, x);
    (p.Done? <==> IdOf(n) in s.doneAt) && Presupposed(n.op.value.job, IdOf(n), p, TrailOf(s, x))
  }

  lemma LateOps(s: State, t: State, x: Name, p: Phase)
    requires LateStep(s, t, x, p)
    ensures forall y :: y != x ==> OpAt(t, y) == OpAt(s, y)
    ensures OpAt(s, x).Some? && OpAt(t, x) == Some(OpAt(s, x).value.(phase := p))
    ensures t.op == s.op && t.flight == s.flight && t.next == s.next && t.doneAt == s.doneAt
  {
  }

  lemma LateLedgerIff(s: State, t: State, x: Name, p: Phase)
    requires Ledger(s) && LateStep(s, t, x, p)
    ensures Ledger(t) <==> (p.Done? <==> IdOf(NodeOf(s, x)) in s.doneAt)
  {
    LateOps(s, t, x, p);
    assert OpKnown(x, OpAt(s, x).value, s.doneAt, s.next);
    assert IdOf(NodeOf(s, x)) == OpAt(s, x).value.id;
    hide LateStep, OpAt;
  }

  lemma LateAcceptIff(s: State, t: State, x: Name, p: Phase)
    requires AcceptHistory(s) && LateStep(s, t, x, p)
    ensures AcceptHistory(t) <==> Presupposed(NodeOf(s, x).op.value.job, IdOf(NodeOf(s, x)), p, TrailOf(s, x))
  {
    hide Presupposed;
    if AcceptInv(NodeOf(t, x), TrailOf(t, x)) {
      forall y | y in t.members ensures AcceptInv(NodeOf(t, y), TrailOf(t, y)) {
        if y != x { assert AcceptInv(NodeOf(s, y), TrailOf(s, y)); }
      }
    }
  }

  lemma LateKeepsOwns(s: State, t: State, x: Name, p: Phase)
    requires Owns(s) && LateStep(s, t, x, p)
    ensures Owns(t)
  {
    LateOps(s, t, x, p);
    hide LateStep, OpAt;
    assert forall slot, id :: Runs(t, slot, id) == Runs(s, slot, id);
    assert forall e :: Settled(t, e) == Settled(s, e) by { hide Accomplished; }
    assert forall id :: When(t, id) == When(s, id);
    hide Runs, Settled, When;
  }

  /** The late writes that the account of entries and their operations survives. */
  lemma LateOwnIff(s: State, t: State, x: Name, p: Phase)
    requires OwnInv(s) && LateStep(s, t, x, p)
    ensures OwnInv(t) <==> SparesOwn(s, x, p)
  {
    LateOps(s, t, x, p);
    LateLedgerIff(s, t, x, p);
    LateKeepsOwns(s, t, x, p);
    assert OpKnown(x, OpAt(s, x).value, s.doneAt, s.next);
    LateAcceptIff(s, t, x, p);
    hide Ledger, AcceptHistory, Owns, LateStep, Presupposed;
  }

  ghost predicate OwnSparing(s: State, e: Event) {
    match e
    case Acts(a) => Spared(s, a)
    case Late(x, p) => x in s.members && NodeOf(s, x).op.Some? && SparesOwn(s, x, p)
  }

  lemma {:induction false} OwnOverEvents(states: seq<State>, events: seq<Event>, k: nat)
    requires IsEventRun(states, events) && k < |states| && NothingPlanned(states[0])
    requires forall i :: 0 <= i < |events| ==> OwnSparing(states[i], events[i])
    ensures OwnInv(states[k])
  {
    hide Step, Spared, LateStep, SparesOwn, Ledger, AcceptHistory;
    if k > 0 {
      hide OwnInv;
      OwnOverEvents(states, events, k - 1);
      var s, e, t := states[k - 1], events[k - 1], states[k];
      assert Happens(s, e, t) && OwnSparing(s, e);
      match e
      case Acts(a) => StepKeepsOwnInv(s, a, t);
      case Late(x, p) => LateOwnIff(s, t, x, p);
    }
  }

  /** In runs with such late writes, a plan at its end still stands for its own operations, in plan order. */
  lemma PostflightDespiteLateWrites(states: seq<State>, events: seq<Event>, k: nat, i: nat, j: nat)
    requires IsEventRun(states, events) && k < |states| && NothingPlanned(states[0])
    requires forall i :: 0 <= i < |events| ==> OwnSparing(states[i], events[i])
    requires states[k].op.Some? && (states[k].op.value.phase.Postflight? || states[k].op.value.phase.ClusterDone?)
    requires i < |states[k].op.value.plan|
    ensures var plan := states[k].op.value.plan;
            && Matches(plan, states[k].op.value.planned)
            && Settled(states[k], plan[i])
            && (i < j < |plan| ==> plan[i].tag < When(states[k], plan[i].tag) <= plan[j].tag)
  {
    hide Happens, OwnSparing, AcceptHistory;
    OwnOverEvents(states, events, k);
  }

  /** And with any other: a late Done has the runner tick off an entry whose operation has hardly begun. */
  lemma LateDoneIsTakenOver(s: State, i: nat) returns (states: seq<State>, events: seq<Event>)
    requires AtEntry(s, i, Applying) && s.op.value.plan[i].tag !in s.doneAt
    requires NodeOf(s, s.op.value.plan[i].slot.node).op.Some?
    ensures IsEventRun(states, events) && |events| == 2 && states[0] == s && events[0] == Late(s.op.value.plan[i].slot.node, Done)
    ensures states[2].op.Some? && i < |states[2].op.value.plan|
    ensures states[2].op.value.plan[i] == s.op.value.plan[i].(phase := Done) && !Settled(states[2], states[2].op.value.plan[i])
  {
    var x := s.op.value.plan[i].slot.node;
    var t := WithMember(s, x, s.members[x].(node := LateWrite(NodeOf(s, x), Done)));
    hide Current;
    ObserveDone(t, i);
    hide Step;
    states := [s, t, WithEntry(t, i, t.op.value.plan[i].(phase := Done))];
    events := [Late(x, Done), Acts(ObserveEntry(i))];
  }
}
