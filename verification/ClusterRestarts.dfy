/**
 * What stopping the operator in the middle of a cluster reconcile does: every stop but one is made up
 * for by the next reconcile; a stop between the two writes of a start has the entry started again.
 */
module ClusterRestarts {
  import opened Types
  import opened NodeSteps
  import opened Protocol
  import opened PlanShape
  import opened NodeHistory
  import opened Chains
  import opened ClusterController

  // ---------------------------------------------------------------- how often an entry is started

  /** Entry `i` has been started, as far as anybody remembers. */
  predicate Begun(s: State, i: nat) {
    && s.op.Some? && i < |s.op.value.plan|
    && (!s.op.value.plan[i].phase.Pending? || (s.flight.Starting? && s.flight.entry == i))
  }

  predicate UnderWay(s: State) { s.op.Some? && s.op.value.phase.InProgress? }

  /** A crash that forgets a start of entry `i`. */
  predicate Forgets(s: State, a: Action, i: nat) { a.Crash? && s.flight.Starting? && s.flight.entry == i }

  function One(b: bool): nat { if b then 1 else 0 }

  function Starts(actions: seq<Action>, p: nat, k: nat, i: nat): nat
    requires p <= k <= |actions|
  {
    if k == p then 0 else Starts(actions, p, k - 1, i) + One(actions[k - 1] == StartEntry(i))
  }

  function Losses(states: seq<State>, actions: seq<Action>, p: nat, k: nat, i: nat): nat
    requires p <= k <= |actions| < |states|
  {
    if k == p then 0 else Losses(states, actions, p, k - 1, i) + One(Forgets(states[k - 1], actions[k - 1], i))
  }

  /** One step's part in the account. */
  lemma StartsStep(s: State, a: Action, t: State, i: nat)
    requires ShapeInv(s) && Step(s, a, t) && UnderWay(s) && UnderWay(t)
    ensures One(Begun(t, i)) + One(Forgets(s, a, i)) == One(Begun(s, i)) + One(a == StartEntry(i))
  {
    hide Lists, Refused, Slots, NodeMove, Current, Shaped;
    if Elsewhere(a) {
      hide Step;
      ElsewhereKeepsPlan(s, a, t);
    } else if a.StartEntry? {
      StartFacts(s, a, t);
      hide Step;
    } else if a.ConfirmStart? {
      ConfirmFacts(s, a, t);
      hide Step;
    } else if a.ObserveEntry? {
      ObserveFacts(s, a, t);
      hide Step;
    }
  }

  /**
   * While a plan is under way, an entry has been started once for each crash that hit between the two
   * writes of its start, and once more if it counts as begun.
   */
  lemma {:induction false} StartsAccount(states: seq<State>, actions: seq<Action>, p: nat, k: nat, i: nat)
    requires IsRun(states, actions) && p <= k < |states| && ShapeInv(states[0])
    requires forall j :: p <= j <= k ==> UnderWay(states[j])
    requires !Begun(states[p], i)
    ensures Starts(actions, p, k, i) == Losses(states, actions, p, k, i) + One(Begun(states[k], i))
  {
    hide Step, ShapeInv, UnderWay;
    if p < k {
      StartsAccount(states, actions, p, k - 1, i);
      PlansKeepTheirShape(states, actions, k - 1);
      StartsStep(states[k - 1], actions[k - 1], states[k], i);
    }
  }

  /** So an entry that has begun was started more than once if and only if a crash hit a start of it. */
  lemma StartedTwiceIff(states: seq<State>, actions: seq<Action>, p: nat, k: nat, i: nat)
    requires IsRun(states, actions) && p <= k < |states| && ShapeInv(states[0])
    requires forall j :: p <= j <= k ==> UnderWay(states[j])
    requires !Begun(states[p], i) && Begun(states[k], i)
    ensures Starts(actions, p, k, i) > 1 <==> exists j :: p <= j < k && Forgets(states[j], actions[j], i)
  {
    hide Step;
    StartsAccount(states, actions, p, k, i);
    LossesIff(states, actions, p, k, i);
  }

  lemma {:induction false} LossesIff(states: seq<State>, actions: seq<Action>, p: nat, k: nat, i: nat)
    requires p <= k <= |actions| < |states|
    ensures Losses(states, actions, p, k, i) > 0 <==> exists j :: p <= j < k && Forgets(states[j], actions[j], i)
  {
    if p < k { LossesIff(states, actions, p, k - 1, i); }
  }

  // ---------------------------------------------------------------- reconciles that stop half way

  /** The steps of the cluster controller leave nothing open. */
  lemma ClusterStepsAreDetermined(s: State, a: Action, t: State, u: State)
    requires Step(s, a, t) && Step(s, a, u) && (ClusterOnly(a) || a.StartEntry?)
    ensures t == u
  {
    hide Lists, Refused, Slots, Current;
  }

  /**
   * A reconcile with two writes stops behind the first; the operator restarts, and the next reconcile
   * does what is left. It ends where the first would have ended, if and only if that was not starting an
   * entry: a request is taken in, an automatic bootstrap is planned, a failed entry fails its operation.
   */
  lemma StoppedReconcileIff(s: State, o: Outside, cps: seq<Name>, ws: seq<Name>, full: seq<State>, again: seq<State>)
    requires ShapeInv(s) && s.flight.NoFlight? && |Script(s, o, cps, ws)| == 2
    requires IsRun(full, Script(s, o, cps, ws)) && full[0] == s
    requires |again| > 0 && again[0] == full[1].(flight := NoFlight) && IsRun(again, Script(again[0], o, cps, ws))
    ensures again[|again| - 1] == full[2] <==> !Script(s, o, cps, ws)[0].StartEntry?
  {
    hide Step, ShapeInv, CanAutoBootstrap, CanAutoWindow;
    if o.autoBootstrap && CanAutoBootstrap(s) {
      StoppedBootstrap(s, o, cps, ws, full, again);
    } else if s.request.Some? {
      StoppedIntake(s, o, cps, ws, full, again);
    } else {
      StoppedRunner(s, o, cps, ws, full, again);
    }
  }

  lemma StoppedBootstrap(s: State, o: Outside, cps: seq<Name>, ws: seq<Name>, full: seq<State>, again: seq<State>)
    requires o.autoBootstrap && CanAutoBootstrap(s)
    requires IsRun(full, [AutoBootstrap, Plan(cps, ws)]) && full[0] == s
    requires |again| > 0 && again[0] == full[1].(flight := NoFlight) && IsRun(again, Script(again[0], o, cps, ws))
    ensures again[|again| - 1] == full[2]
  {
    assert Step(s, AutoBootstrap, full[1]) && Step(full[1], Plan(cps, ws), full[2]);
    assert full[1] == s.(op := NewOp(ClusterBootstrap)) == again[0];
    assert Script(again[0], o, cps, ws) == [Plan(cps, ws)];
    assert Step(again[0], Plan(cps, ws), again[1]);
    hide Step;
    ClusterStepsAreDetermined(full[1], Plan(cps, ws), full[2], again[1]);
  }

  lemma StoppedIntake(s: State, o: Outside, cps: seq<Name>, ws: seq<Name>, full: seq<State>, again: seq<State>)
    requires s.request.Some? && s.flight.NoFlight?
    requires IsRun(full, [Intake, ClearRequest]) && full[0] == s
    requires |again| > 0 && again[0] == full[1].(flight := NoFlight) && IsRun(again, Script(again[0], o, cps, ws))
    ensures again[|again| - 1] == full[2]
  {
    hide Step, Script;
    TwoSteps(full, Intake, ClearRequest);
    TakenIn(full[0], full[1], full[2]);
    RequestComesFirst(again[0], o, cps, ws);
    TwoSteps(again, Intake, ClearRequest);
    TakenIn(again[0], again[1], again[2]);
  }

  lemma TwoSteps(states: seq<State>, a: Action, b: Action)
    requires IsRun(states, [a, b])
    ensures |states| == 3 && Step(states[0], a, states[1]) && Step(states[1], b, states[2])
  {
    hide Step;
    assert [a, b][0] == a && [a, b][1] == b;
  }

  lemma RequestComesFirst(s: State, o: Outside, cps: seq<Name>, ws: seq<Name>)
    requires s.request.Some?
    ensures Script(s, o, cps, ws) == [Intake, ClearRequest]
  {
    hide RunnerScript;
  }

  lemma TakenIn(s: State, t: State, u: State)
    requires Step(s, Intake, t) && Step(t, ClearRequest, u)
    ensures s.request.Some? && t == s.(op := NewOp(s.request.value), flight := Clearing)
    ensures u == s.(op := NewOp(s.request.value), request := None, flight := NoFlight)
  {
  }

  /** At an entry: an observed failure is carried on with, a start is made once more. */
  lemma StoppedRunner(s: State, o: Outside, cps: seq<Name>, ws: seq<Name>, full: seq<State>, again: seq<State>)
    requires ShapeInv(s) && s.flight.NoFlight? && s.request.None? && UnderWay(s) && |RunnerScript(s, o)| == 2
    requires IsRun(full, RunnerScript(s, o)) && full[0] == s
    requires |again| > 0 && again[0] == full[1].(flight := NoFlight) && IsRun(again, Script(again[0], o, cps, ws))
    ensures again[|again| - 1] == full[2] <==> !RunnerScript(s, o)[0].StartEntry?
  {
    hide Step, Script, ShapeInv;
    var i := FirstOpen(s.op.value.plan);
    if RunnerScript(s, o)[0].StartEntry? {
      assert RunnerScript(s, o) == [StartEntry(i), ConfirmStart];
      StoppedStart(s, o, cps, ws, i, full, again);
    } else {
      assert RunnerScript(s, o) == [ObserveEntry(i), FailEntry(i)];
      StoppedObserve(s, o, cps, ws, i, full, again);
    }
  }

  lemma StoppedStart(s: State, o: Outside, cps: seq<Name>, ws: seq<Name>, i: nat, full: seq<State>, again: seq<State>)
    requires s.request.None? && UnderWay(s) && i == FirstOpen(s.op.value.plan) < |s.op.value.plan| && !o.unreadable
    requires IsRun(full, [StartEntry(i), ConfirmStart]) && full[0] == s
    requires |again| > 0 && again[0] == full[1].(flight := NoFlight) && IsRun(again, Script(again[0], o, cps, ws))
    ensures again[|again| - 1] != full[2]
  {
    assert Step(full[0], StartEntry(i), full[1]) && Step(full[1], ConfirmStart, full[2]);
    StartFacts(full[0], StartEntry(i), full[1]);
    ConfirmFacts(full[1], ConfirmStart, full[2]);
    StepCounters(full[0], StartEntry(i), full[1]);
    StepCounters(full[1], ConfirmStart, full[2]);
    hide Current;
    assert Script(again[0], o, cps, ws) == [StartEntry(i), ConfirmStart];
    assert Step(again[0], StartEntry(i), again[1]) && Step(again[1], ConfirmStart, again[2]);
    hide Step, Script;
    StepCounters(again[0], StartEntry(i), again[1]);
    StepCounters(again[1], ConfirmStart, again[2]);
  }

  lemma FailedEntryComesNext(s: State, o: Outside, cps: seq<Name>, ws: seq<Name>, i: nat)
    requires AtEntry(s, i, Failed) && s.request.None? && !o.unreadable
    ensures Script(s, o, cps, ws) == [FailEntry(i)]
  {
    CurrentIsFirstOpen(s.op.value.plan, i);
    hide Current;
  }

  lemma StoppedObserve(s: State, o: Outside, cps: seq<Name>, ws: seq<Name>, i: nat, full: seq<State>, again: seq<State>)
    requires s.request.None? && UnderWay(s) && i == FirstOpen(s.op.value.plan) < |s.op.value.plan| && !o.unreadable
    requires IsRun(full, [ObserveEntry(i), FailEntry(i)]) && full[0] == s
    requires |again| > 0 && again[0] == full[1].(flight := NoFlight) && IsRun(again, Script(again[0], o, cps, ws))
    ensures again[|again| - 1] == full[2]
  {
    assert Step(full[0], ObserveEntry(i), full[1]) && Step(full[1], FailEntry(i), full[2]);
    ObserveFacts(full[0], ObserveEntry(i), full[1]);
    assert AtEntry(full[1], i, Failed);
    assert again[0] == full[1];
    hide Step, Script, Current;
    FailedEntryComesNext(again[0], o, cps, ws, i);
    assert Step(again[0], FailEntry(i), again[1]);
    ClusterStepsAreDetermined(full[1], FailEntry(i), full[2], again[1]);
  }

  // ---------------------------------------------------------------- a Bootstrap that is sent twice

  /** The runner is about to start a Bootstrap on a provisioned node, and all is quiet. */
  ghost predicate AboutToBootstrap(s: State, i: nat, x: Name) {
    && AtEntry(s, i, Pending) && s.op.value.plan[i].slot.node == x && s.op.value.plan[i].slot.job.kind.Bootstrap?
    && Eligible(NodeOf(s, x)) && !OthersActive(s, x)
  }

  /** A Bootstrap is waiting on `x`. */
  ghost predicate Waiting(s: State, i: nat, x: Name) {
    && x in s.members && Eligible(NodeOf(s, x)) && !OthersActive(s, x)
    && NodeOf(s, x).op.Some? && KindOf(NodeOf(s, x)).Bootstrap? && PhaseOf(NodeOf(s, x)).Pending?
  }

  lemma BootstrapBegins(n: Node, target: nat) returns (pass: Pass, m: Node)
    requires n.op.Some? && KindOf(n).Bootstrap? && PhaseOf(n).Pending? && Eligible(n)
    ensures NodeMove(n, m, pass, false, target) && m.op == Some(n.op.value.(phase := Applying)) && Eligible(m)
  {
    var seen := n.(bootID := n.boot, ready := Yes, configInSync := No, k8sInSync := FromBool(UpToDate(n, target)));
    m := seen.(op := Some(n.op.value.(phase := Applying)));
    pass := Start(seen, Nothing);
  }

  lemma BootstrapEnds(n: Node, target: nat, end: Phase) returns (m: Node)
    requires n.op.Some? && KindOf(n).Bootstrap? && PhaseOf(n).Applying? && Eligible(n) && Complete(end)
    ensures NodeMove(n, m, Run(Called), false, target) && m.op == Some(n.op.value.(phase := end)) && Eligible(m)
  {
    m := n.(op := Some(n.op.value.(phase := end)));
  }

  /** Two passes send the call, and end as the machine answers it. */
  lemma BootstrapRuns(s: State, i: nat, x: Name, end: Phase) returns (states: seq<State>, actions: seq<Action>)
    requires Waiting(s, i, x) && Complete(end)
    ensures IsRun(states, actions) && |actions| == 2 && states[0] == s && actions[1] == NodePass(x, Run(Called))
    ensures var t := states[2];
            && x in t.members && t.members == s.members[x := t.members[x]] && t == s.(members := t.members, doneAt := t.doneAt)
            && NodeOf(t, x).op == Some(NodeOf(s, x).op.value.(phase := end)) && Eligible(NodeOf(t, x)) && !OthersActive(t, x)
  {
    var n := NodeOf(s, x);
    var pass, a := BootstrapBegins(n, s.target);
    var b := BootstrapEnds(a, s.target, end);
    hide NodeMove, Step;
    states, actions := ChainIsRun(s, x, [n, a, b], [pass, Run(Called)]);
    SameOthers(s, states[2], x);
  }

  lemma StartAndCrash(s: State, i: nat, x: Name) returns (t: State, u: State)
    requires AboutToBootstrap(s, i, x)
    ensures Step(s, StartEntry(i), t) && Step(t, Crash, u) && Forgets(t, Crash, i)
    ensures Waiting(u, i, x) && u == s.(members := u.members, next := s.next + 1)
    ensures u.members == s.members[x := u.members[x]] && IdOf(NodeOf(u, x)) == s.next
  {
    CanStart(s, i);
    t := Started(s, i);
    u := t.(flight := NoFlight);
    assert Step(t, Crash, u);
    hide Step, Current;
    SameOthers(s, u, x);
  }

  lemma StartAndConfirm(s: State, i: nat, x: Name) returns (t: State, u: State)
    requires AboutToBootstrap(s, i, x)
    ensures Step(s, StartEntry(i), t) && Step(t, ConfirmStart, u)
    ensures Waiting(u, i, x) && AtEntry(u, i, Applying) && u.op.value.plan[i].slot.node == x && IdOf(NodeOf(u, x)) == s.next
  {
    CanStart(s, i);
    t := Started(s, i);
    u := Confirmed(t);
    hide Step;
    SameOthers(s, u, x);
  }

  lemma FailureIsTakenOver(s: State, i: nat, x: Name) returns (t: State, u: State)
    requires AtEntry(s, i, Applying) && s.op.value.plan[i].slot.node == x && NodeOf(s, x).op.Some? && PhaseOf(NodeOf(s, x)).Failed?
    ensures Step(s, ObserveEntry(i), t) && Step(t, FailEntry(i), u) && u.op.Some? && u.op.value.phase.ClusterFailed?
  {
    CanObserve(s, i);
    t := WithEntry(s, i, s.op.value.plan[i].(phase := Failed));
    u := WithClusterPhase(t, ClusterFailed);
    hide Step;
  }

  /** The start is forgotten, and its operation goes on and succeeds. */
  lemma ForgottenBootstrap(s: State, i: nat, x: Name) returns (states: seq<State>, actions: seq<Action>)
    requires AboutToBootstrap(s, i, x)
    ensures IsRun(states, actions) && |actions| == 4 && states[0] == s && AboutToBootstrap(states[4], i, x)
    ensures actions[0] == StartEntry(i) && actions[1] == Crash && Forgets(states[1], Crash, i) && actions[3] == NodePass(x, Run(Called))
    ensures NodeOf(states[4], x).op.Some? && IdOf(NodeOf(states[4], x)) == s.next && PhaseOf(NodeOf(states[4], x)).Done?
  {
    var t, u := StartAndCrash(s, i, x);
    var run, acts := BootstrapRuns(u, i, x, Done);
    assert AboutToBootstrap(run[2], i, x);
    hide Step, AboutToBootstrap, Waiting;
    RunsJoin([s, t, u], [StartEntry(i), Crash], run, acts);
    states, actions := [s, t, u] + run[1..], [StartEntry(i), Crash] + acts;
  }

  /** Started properly, and refused. */
  lemma RefusedBootstrap(s: State, i: nat, x: Name) returns (states: seq<State>, actions: seq<Action>)
    requires AboutToBootstrap(s, i, x)
    ensures IsRun(states, actions) && |actions| == 6 && states[0] == s
    ensures actions[0] == StartEntry(i) && actions[3] == NodePass(x, Run(Called))
    ensures states[6].op.Some? && states[6].op.value.phase.ClusterFailed?
  {
    var t, u := StartAndConfirm(s, i, x);
    var run, acts := BootstrapRuns(u, i, x, Failed);
    var v := run[2];
    assert AtEntry(v, i, Applying);
    var w, z := FailureIsTakenOver(v, i, x);
    hide Step, AboutToBootstrap, Waiting, AtEntry;
    RunsJoin([s, t, u], [StartEntry(i), ConfirmStart], run, acts);
    states, actions := [s, t, u] + run[1..], [StartEntry(i), ConfirmStart] + acts;
    RunsJoin(states, actions, [v, w, z], [ObserveEntry(i), FailEntry(i)]);
    states, actions := states + [v, w, z][1..], actions + [ObserveEntry(i), FailEntry(i)];
  }

  /**
   * Stopped between the two writes of its start, a Bootstrap that succeeds in the meantime is put in place
   * once more: the call is sent a second time, and as the machine refuses it, operation and cluster
   * operation fail, although the cluster is bootstrapped.
   */
  lemma BootstrapSentTwice(s: State, i: nat, x: Name) returns (states: seq<State>, actions: seq<Action>)
    requires AboutToBootstrap(s, i, x)
    ensures IsRun(states, actions) && |actions| == 10 && states[0] == s
    ensures actions[1] == Crash && Forgets(states[1], Crash, i) && actions[0] == actions[4] == StartEntry(i)
    ensures actions[3] == actions[7] == NodePass(x, Run(Called))
    ensures x in states[4].members && NodeOf(states[4], x).op.Some? && IdOf(NodeOf(states[4], x)) == s.next && PhaseOf(NodeOf(states[4], x)).Done?
    ensures states[10].op.Some? && states[10].op.value.phase.ClusterFailed?
  {
    var first, acts := ForgottenBootstrap(s, i, x);
    var second, more := RefusedBootstrap(first[4], i, x);
    hide Step;
    RunsJoin(first, acts, second, more);
    states, actions := first + second[1..], acts + more;
    assert states[4] == first[4] && states[10] == second[6];
  }
}
