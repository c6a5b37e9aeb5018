/** Does an Apply end, and do operations give the cordon bit back. */
module NodeCycles {
  import opened Types
  import opened NodeSteps
  import opened Protocol

  // ---------------------------------------------------------------- a safe Apply ends

  predicate SafeApply(n: Node) { n.op.Some? && KindOf(n).Apply? && !n.op.value.job.unsafe }

  /** Phases still ahead of an Apply. The drain loop shows in Applying, which counts less once cordoned. */
  function Ahead(p: Phase, cordoned: bool): nat {
    match p
    case Pending => 12
    case UpgradeDrain => 11
    case UpgradePreflight => 10
    case Upgrade113ImagePull => 9
    case Upgrade113Upgrade => 8
    case UpgradeLegacyUpgrade => 8
    case UpgradeVerifying => 7
    case UpgradeUncordon => 6
    case Applying => if cordoned then 3 else 5
    case ApplyDrain => 4
    case ApplyVerifying => 2
    case Done => 0
    case Failed => 0
    case _ => 1
  }

  function Measure(n: Node): nat
    requires n.op.Some?
  {
    Ahead(PhaseOf(n), n.cordoned)
  }

  lemma UpgradeDescends(n: Node, m: Node, d: Deed)
    requires SafeApply(n) && UpgradeMove(n, m, d) && IsUpgradePhase(PhaseOf(n))
    ensures m.op.Some? && PhaseOf(m) != PhaseOf(n) ==> Measure(m) < Measure(n)
    ensures m.op.Some? && Measure(m) <= Measure(n)
  {
  }

  lemma ApplyDescends(n: Node, m: Node, d: Deed)
    requires SafeApply(n) && ApplyMove(n, m, d) && !Complete(PhaseOf(n))
    ensures m.op.Some? && PhaseOf(m) != PhaseOf(n) ==> Measure(m) < Measure(n)
    ensures m.op.Some? && Measure(m) <= Measure(n)
  {
    if IsUpgradePhase(PhaseOf(n)) { UpgradeDescends(n, m, d); }
  }

  /** Every pass over a safe Apply that changes its phase brings it strictly closer to its end. */
  lemma PassDescends(n: Node, m: Node, pass: Pass, busy: bool, target: nat)
    requires NodeMove(n, m, pass, busy, target) && SafeApply(n)
    ensures m.op.Some? && PhaseOf(m) != PhaseOf(n) ==> Measure(m) < Measure(n)
    ensures m.op.Some? && Measure(m) <= Measure(n)
  {
    hide ApplyMove;
    match pass
    case Upkeep => UpkeepKeepsIdentity(n, m, target);
    case Start(seen, d) => if !busy { ApplyDescends(seen, m, d); }
    case Run(d) => if !busy { ApplyDescends(n, m, d); }
  }

  /** Node `x` exists throughout and keeps operation `id`. */
  ghost predicate Keeps(states: seq<State>, x: Name, id: nat) {
    forall i :: 0 <= i < |states| ==>
      x in states[i].members && NodeOf(states[i], x).op.Some? && IdOf(NodeOf(states[i], x)) == id
  }

  /** How often the phase of the operation on `x` changed in the first `k` steps. */
  function PhaseChanges(states: seq<State>, x: Name, k: nat): nat
    requires k < |states|
    requires forall i :: 0 <= i < |states| ==> x in states[i].members && NodeOf(states[i], x).op.Some?
  {
    if k == 0 then 0 else
      PhaseChanges(states, x, k - 1) +
      if PhaseOf(NodeOf(states[k - 1], x)) != PhaseOf(NodeOf(states[k], x)) then 1 else 0
  }

  lemma StepDescends(s: State, a: Action, t: State, x: Name)
    requires Step(s, a, t) && a != CordonChanges(x, false)
    requires x in s.members && x in t.members && SafeApply(NodeOf(s, x)) && IdOf(NodeOf(s, x)) < s.next
    requires NodeOf(t, x).op.Some? && IdOf(NodeOf(t, x)) == IdOf(NodeOf(s, x))
    ensures SafeApply(NodeOf(t, x))
    ensures PhaseOf(NodeOf(t, x)) != PhaseOf(NodeOf(s, x)) ==> Measure(NodeOf(t, x)) < Measure(NodeOf(s, x))
    ensures Measure(NodeOf(t, x)) <= Measure(NodeOf(s, x))
  {
    hide Step, NodeMove;
    StepFate(s, a, t, x);
    if a.NodePass? && a.name == x && t.members[x] != s.members[x] {
      PassFacts(NodeOf(s, x), NodeOf(t, x), a.pass, OthersActive(s, x), s.target);
      PassDescends(NodeOf(s, x), NodeOf(t, x), a.pass, OthersActive(s, x), s.target);
    }
  }

  /**
   * Unless someone else takes the cordon away, a safe Apply changes phase at most as often as its
   * measure allows, which is never more than twelve times.
   */
  lemma {:induction false} SafeApplyEnds(states: seq<State>, actions: seq<Action>, x: Name, id: nat, k: nat)
    requires IsRun(states, actions) && k < |states| && Keeps(states, x, id) && SafeApply(NodeOf(states[0], x))
    requires id < states[0].next
    requires forall i :: 0 <= i < |actions| ==> actions[i] != CordonChanges(x, false)
    ensures SafeApply(NodeOf(states[k], x)) && id < states[k].next
    ensures PhaseChanges(states, x, k) + Measure(NodeOf(states[k], x)) <= Measure(NodeOf(states[0], x)) <= 12
  {
    hide Step;
    if k > 0 {
      SafeApplyEnds(states, actions, x, id, k - 1);
      StepDescends(states[k - 1], actions[k - 1], states[k], x);
      StepCounters(states[k - 1], actions[k - 1], states[k]);
    }
  }

  lemma {:induction false} MeasureFalls(states: seq<State>, actions: seq<Action>, x: Name, id: nat, i: nat, k: nat)
    requires IsRun(states, actions) && i <= k < |states| && Keeps(states, x, id) && SafeApply(NodeOf(states[0], x))
    requires id < states[0].next
    requires forall j :: 0 <= j < |actions| ==> actions[j] != CordonChanges(x, false)
    ensures Measure(NodeOf(states[k], x)) <= Measure(NodeOf(states[i], x))
    ensures PhaseOf(NodeOf(states[k], x)) != PhaseOf(NodeOf(states[i], x)) ==> Measure(NodeOf(states[k], x)) < Measure(NodeOf(states[i], x))
  {
    hide Step;
    if i < k {
      MeasureFalls(states, actions, x, id, i, k - 1);
      SafeApplyEnds(states, actions, x, id, k - 1);
      StepDescends(states[k - 1], actions[k - 1], states[k], x);
    }
  }

  /** Once an Apply is back from its drain it is never drained again: the pair is gone through at most once. */
  lemma DrainedAtMostOnce(states: seq<State>, actions: seq<Action>, x: Name, id: nat, i: nat, k: nat, l: nat)
    requires IsRun(states, actions) && i <= k <= l < |states| && Keeps(states, x, id) && SafeApply(NodeOf(states[0], x))
    requires id < states[0].next
    requires forall j :: 0 <= j < |actions| ==> actions[j] != CordonChanges(x, false)
    requires PhaseOf(NodeOf(states[i], x)).ApplyDrain? && PhaseOf(NodeOf(states[k], x)).Applying?
    ensures !PhaseOf(NodeOf(states[l], x)).ApplyDrain?
  {
    hide Step;
    MeasureFalls(states, actions, x, id, i, k);
    MeasureFalls(states, actions, x, id, k, l);
  }

  /** From Applying a node goes to its drain and comes back as it was exactly when a reboot is due and the drain is skipped. */
  lemma ApplyCyclesIffUnsafe(n: Node)
    requires n.op.Some? && KindOf(n).Apply? && PhaseOf(n).Applying? && !n.cordoned
    ensures (exists m: Node, d: Deed, e: Deed :: ApplyMove(n, m, d) && PhaseOf(m).ApplyDrain? && ApplyMove(m, n, e))
            <==> n.op.value.job.unsafe && !InSync(n)
  {
    var m := n.(op := Some(n.op.value.(phase := ApplyDrain)));
    if !InSync(n) { assert ApplyMove(n, m, Nothing); }
    if n.op.value.job.unsafe { assert ApplyMove(m, n, Nothing); }
  }

  // ---------------------------------------------------------------- the cordon bit

  /** What a finished component upgrade makes of the cordon bit `start`. */
  function FinalCordon(start: bool, marked: bool, drained: bool, skipped: bool): bool {
    if skipped then start else (start || drained) && marked
  }

  predicate CordonInv(n: Node, t: Trail) {
    n.op.Some? && KindOf(n).ComponentUpgrade? && !Complete(PhaseOf(n)) ==>
      var id := IdOf(n);
      && id !in t.skipped
      && if PhaseOf(n).Pending? then
           id !in t.drained
         else
           && id in t.startCordon && id in t.startMarked
           && t.startMarked[id] == (n.unschedulable == Yes)
           && match PhaseOf(n)
              case Draining =>
                if n.op.value.job.unsafe then
                  n.cordoned == t.startCordon[id] && id !in t.drained
                else
                  t.startCordon[id] || id in t.drained ==> n.cordoned
              case Verifying =>
                n.cordoned == (t.startCordon[id] || id in t.drained) || (!n.cordoned && n.unschedulable != Yes)
              case _ => n.cordoned == (t.startCordon[id] || id in t.drained)
  }

  /** A component upgrade that has just reached Done leaves the cordon bit its history accounts for. */
  predicate CordonSettled(m: Node, t: Trail) {
    m.op.Some? && KindOf(m).ComponentUpgrade? && PhaseOf(m).Done? ==>
      var id := IdOf(m);
      && id in t.startCordon && id in t.startMarked
      && m.cordoned == FinalCordon(t.startCordon[id], t.startMarked[id], id in t.drained, id in t.skipped)
  }

  lemma ComponentKeepsCordonInv(n: Node, m: Node, d: Deed, target: nat, t: Trail)
    requires n.op.Some? && KindOf(n).ComponentUpgrade? && !Complete(PhaseOf(n)) && ComponentMove(n, m, d, target)
    requires CordonInv(n, t)
    requires PhaseOf(n).Pending? ==>
               && IdOf(n) in t.startCordon && IdOf(n) in t.startMarked
               && t.startCordon[IdOf(n)] == n.cordoned && t.startMarked[IdOf(n)] == (n.unschedulable == Yes)
    ensures CordonInv(m, RecordDeed(t, n.op.value, d)) && CordonSettled(m, RecordDeed(t, n.op.value, d))
  {
  }

  lemma PassKeepsCordonInv(n: Node, m: Node, pass: Pass, busy: bool, target: nat, t: Trail)
    requires NodeMove(n, m, pass, busy, target) && CordonInv(n, t)
    ensures CordonInv(m, Record(t, n, pass))
    ensures m.op != n.op ==> CordonSettled(m, Record(t, n, pass))
  {
    hide ComponentMove, ApplyMove, UpgradeMove, PowerMove, ResetMove, BootstrapMove;
    match pass
    case Upkeep => UpkeepKeepsIdentity(n, m, target);
    case Start(seen, d) =>
      HandlerKeepsFrame(seen, m, d, busy, target);
      if !busy && KindOf(n).ComponentUpgrade? {
        ComponentKeepsCordonInv(seen, m, d, target, RecordStart(t, n, seen));
      }
    case Run(d) =>
      HandlerKeepsFrame(n, m, d, busy, target);
      if !busy && KindOf(n).ComponentUpgrade? { ComponentKeepsCordonInv(n, m, d, target, t); }
  }

  /** The cordon bit of an Apply on its way: its own drain sets it, the end of an OS upgrade clears it. */
  predicate OnTheWay(t: Trail, id: nat)
    requires id in t.startCordon
  {
    (t.startCordon[id] && id !in t.upgradeVerified) || id in t.applyDrained
  }

  predicate ApplyCordonInv(n: Node, t: Trail) {
    n.op.Some? && KindOf(n).Apply? && !Complete(PhaseOf(n)) ==>
      var id := IdOf(n);
      && id !in t.skipped && id !in t.applyVerified
      && if PhaseOf(n).Pending? then
           id !in t.applyDrained && id !in t.upgradeVerified
         else
           && id in t.startCordon && id in t.startMarked
           && t.startMarked[id] == (n.unschedulable == Yes)
           && (IsUpgradePhase(PhaseOf(n)) ==> id !in t.applyDrained && (id in t.upgradeVerified <==> PhaseOf(n).UpgradeUncordon?))
           && (PhaseOf(n).Applying? ==> n.cordoned == OnTheWay(t, id))
           && (PhaseOf(n).ApplyDrain? ==> if n.op.value.job.unsafe then n.cordoned == OnTheWay(t, id) else OnTheWay(t, id) ==> n.cordoned)
           && (PhaseOf(n).ApplyVerifying? ==> n.cordoned == OnTheWay(t, id) || (!n.cordoned && n.unschedulable != Yes))
  }

  /** An Apply that has just reached Done leaves the cordon bit its history accounts for. */
  predicate ApplyCordonSettled(m: Node, t: Trail) {
    m.op.Some? && KindOf(m).Apply? && PhaseOf(m).Done? ==>
      var id := IdOf(m);
      && id in t.startCordon && id in t.startMarked
      && m.cordoned == if id in t.skipped then t.startCordon[id]
                       else OnTheWay(t, id) && (id in t.applyVerified ==> t.startMarked[id])
  }

  lemma UpgradeKeepsApplyCordon(n: Node, m: Node, d: Deed, t: Trail)
    requires n.op.Some? && KindOf(n).Apply? && IsUpgradePhase(PhaseOf(n)) && UpgradeMove(n, m, d) && ApplyCordonInv(n, t)
    ensures ApplyCordonInv(m, RecordDeed(t, n.op.value, d)) && ApplyCordonSettled(m, RecordDeed(t, n.op.value, d))
  {
  }

  lemma ApplyKeepsApplyCordon(n: Node, m: Node, d: Deed, t: Trail)
    requires n.op.Some? && KindOf(n).Apply? && !Complete(PhaseOf(n)) && ApplyMove(n, m, d) && ApplyCordonInv(n, t)
    requires PhaseOf(n).Pending? ==>
               && IdOf(n) in t.startCordon && IdOf(n) in t.startMarked
               && t.startCordon[IdOf(n)] == n.cordoned && t.startMarked[IdOf(n)] == (n.unschedulable == Yes)
    ensures ApplyCordonInv(m, RecordDeed(t, n.op.value, d)) && ApplyCordonSettled(m, RecordDeed(t, n.op.value, d))
  {
    if IsUpgradePhase(PhaseOf(n)) { UpgradeKeepsApplyCordon(n, m, d, t); }
  }

  lemma PassKeepsApplyCordon(n: Node, m: Node, pass: Pass, busy: bool, target: nat, t: Trail)
    requires NodeMove(n, m, pass, busy, target) && ApplyCordonInv(n, t)
    ensures ApplyCordonInv(m, Record(t, n, pass))
    ensures m.op != n.op ==> ApplyCordonSettled(m, Record(t, n, pass))
  {
    hide ComponentMove, ApplyMove, UpgradeMove, PowerMove, ResetMove, BootstrapMove;
    match pass
    case Upkeep => UpkeepKeepsIdentity(n, m, target);
    case Start(seen, d) =>
      HandlerKeepsFrame(seen, m, d, busy, target);
      if !busy && KindOf(n).Apply? { ApplyKeepsApplyCordon(seen, m, d, RecordStart(t, n, seen)); }
    case Run(d) =>
      HandlerKeepsFrame(n, m, d, busy, target);
      if !busy && KindOf(n).Apply? { ApplyKeepsApplyCordon(n, m, d, t); }
  }

  /** An Apply that rebooted a machine shown as ready did so on a cordoned node: cordoned from the start, or by its own drain. */
  predicate ReadyCordoned(t: Trail) {
    && (forall id :: id in t.rebootedReady ==> id in t.startCordon && (t.startCordon[id] || id in t.applyDrained))
    && (forall id :: id in t.applyDrained ==> id in t.drained)
  }

  predicate ReadyInv(n: Node, t: Trail) {
    ReadyCordoned(t) && (n.op.Some? && PhaseOf(n).Pending? ==> IdOf(n) !in t.rebootedReady)
  }

  lemma HandlerKeepsReady(n: Node, m: Node, d: Deed, busy: bool, target: nat, t: Trail)
    requires n.op.Some? && HandlerMove(n, m, d, busy, target) && ReadyInv(n, t) && ApplyCordonInv(n, t)
    ensures ReadyInv(m, RecordDeed(t, n.op.value, d))
  {
    hide ComponentMove, PowerMove, ResetMove, BootstrapMove, UpgradeMove;
    HandlerKeepsFrame(n, m, d, busy, target);
    if d.Accepted? && KindOf(n).Apply? { AcceptedInApplying(n, m, d, busy, target); }
    hide HandlerMove;
  }

  lemma AcceptedInApplying(n: Node, m: Node, d: Deed, busy: bool, target: nat)
    requires n.op.Some? && HandlerMove(n, m, d, busy, target) && d.Accepted? && KindOf(n).Apply?
    ensures PhaseOf(n).Applying? && (d.reboots && d.ready ==> n.cordoned)
  {
  }

  lemma PassKeepsReady(n: Node, m: Node, pass: Pass, busy: bool, target: nat, t: Trail)
    requires NodeMove(n, m, pass, busy, target) && ReadyInv(n, t) && ApplyCordonInv(n, t)
    ensures ReadyInv(m, Record(t, n, pass))
  {
    hide HandlerMove;
    match pass
    case Upkeep => UpkeepKeepsIdentity(n, m, target);
    case Start(seen, d) =>
      var u := RecordStart(t, n, seen);
      assert ReadyInv(seen, u);
      assert ApplyCordonInv(seen, u);
      HandlerKeepsReady(seen, m, d, busy, target, u);
    case Run(d) => HandlerKeepsReady(n, m, d, busy, target, t);
  }

  predicate Handed(ids: set<nat>, next: nat) { forall id :: id in ids ==> id < next }

  /** Ids on record have been handed out. */
  predicate TakenIds(n: Node, t: Trail, next: nat) {
    && (n.op.Some? ==> IdOf(n) < next)
    && Handed(t.drained, next) && Handed(t.applyDrained, next) && Handed(t.skipped, next)
    && Handed(t.upgradeVerified, next) && Handed(t.applyVerified, next) && Handed(t.rebootedReady, next)
  }

  lemma PassKeepsTakenIds(n: Node, m: Node, pass: Pass, busy: bool, target: nat, t: Trail, next: nat)
    requires NodeMove(n, m, pass, busy, target) && TakenIds(n, t, next)
    ensures TakenIds(m, Record(t, n, pass), next)
  {
    PassFacts(n, m, pass, busy, target);
    hide NodeMove;
  }

  predicate Accounted(w: Member, next: nat) {
    CordonInv(w.node, w.trail) && ApplyCordonInv(w.node, w.trail) && ReadyInv(w.node, w.trail) && TakenIds(w.node, w.trail, next)
  }

  predicate Settles(n: Node, t: Trail) { CordonSettled(n, t) && ApplyCordonSettled(n, t) }

  ghost predicate CordonsKept(s: State, x: Name) { x in s.members ==> Accounted(s.members[x], s.next) }

  lemma PassKeepsAccounts(w: Member, v: Member, pass: Pass, busy: bool, target: nat, next: nat)
    requires NodeMove(w.node, v.node, pass, busy, target) && v.trail == Record(w.trail, w.node, pass)
    requires Accounted(w, next)
    ensures Accounted(v, next)
    ensures v.node.op != w.node.op ==> Settles(v.node, v.trail)
  {
    hide NodeMove, Record, CordonInv, CordonSettled, ApplyCordonInv, ApplyCordonSettled, TakenIds, ReadyInv;
    PassKeepsReady(w.node, v.node, pass, busy, target, w.trail);
    PassKeepsTakenIds(w.node, v.node, pass, busy, target, w.trail, next);
    PassKeepsCordonInv(w.node, v.node, pass, busy, target, w.trail);
    PassKeepsApplyCordon(w.node, v.node, pass, busy, target, w.trail);
  }

  lemma LandingKeepsAccounts(w: Member, v: Member, next: nat)
    requires Accounted(w, next) && v.trail == w.trail && v.node == w.node.(op := v.node.op)
    requires v.node.op.Some? && PhaseOf(v.node).Pending? && IdOf(v.node) == next
    ensures Accounted(v, next + 1)
  {
  }

  lemma AlterationKeepsAccounts(w: Member, v: Member, next: nat)
    requires Accounted(w, next) && v.trail == w.trail && Altered(w.node, v.node) && v.node.cordoned == w.node.cordoned
    ensures Accounted(v, next)
  {
  }

  lemma LaterKeepsAccounts(w: Member, next: nat, later: nat)
    requires Accounted(w, next) && next <= later
    ensures Accounted(w, later)
  {
  }

  lemma LandedKeepsAccounts(s: State, a: Action, t: State, x: Name)
    requires x in s.members && x in t.members && Accounted(s.members[x], s.next) && Landed(s, a, t, x)
    ensures Accounted(t.members[x], s.next + 1) && Lands(a)
  {
    LandedLands(s, a, t, x);
    hide Accounted, Launches;
    LandingKeepsAccounts(s.members[x], t.members[x], s.next);
  }

  lemma StepKeepsCordons(s: State, a: Action, t: State, x: Name)
    requires Step(s, a, t) && CordonsKept(s, x) && (a.CordonChanges? ==> a.name != x)
    ensures CordonsKept(t, x)
    ensures x in s.members && x in t.members && a.NodePass? && NodeOf(t, x).op != NodeOf(s, x).op ==>
              Settles(NodeOf(t, x), TrailOf(t, x))
  {
    hide Step, NodeMove, Settles, Record, Altered;
    StepCounters(s, a, t);
    StepFate(s, a, t, x);
    if x in t.members {
      if x in s.members {
        hide Accounted, Landed;
        var w, v := s.members[x], t.members[x];
        LaterKeepsAccounts(w, s.next, t.next);
        if v != w {
          if Landed(s, a, t, x) {
            LandedKeepsAccounts(s, a, t, x);
          } else if a.NodePass? {
            PassKeepsAccounts(w, v, a.pass, OthersActive(s, x), s.target, s.next);
          } else {
            AlterationKeepsAccounts(w, v, s.next);
          }
        }
      }
    }
  }

  lemma {:induction false} CordonsOverRuns(states: seq<State>, actions: seq<Action>, k: nat, x: Name)
    requires IsRun(states, actions) && k < |states| && CordonsKept(states[0], x)
    requires forall i :: 0 <= i < |actions| && actions[i].CordonChanges? ==> actions[i].name != x
    ensures CordonsKept(states[k], x)
  {
    hide Step, CordonsKept;
    if k > 0 {
      CordonsOverRuns(states, actions, k - 1, x);
      StepKeepsCordons(states[k - 1], actions[k - 1], states[k], x);
    }
  }

  /** In this step of the run the operation on `x` reached Done. */
  ghost predicate Finishes(states: seq<State>, actions: seq<Action>, k: nat, x: Name)
    requires |states| == |actions| + 1
  {
    && k < |actions| && actions[k].NodePass? && x in states[k].members && x in states[k + 1].members
    && NodeOf(states[k + 1], x).op != NodeOf(states[k], x).op
    && NodeOf(states[k + 1], x).op.Some? && PhaseOf(NodeOf(states[k + 1], x)).Done?
  }

  lemma FinishSettles(states: seq<State>, actions: seq<Action>, k: nat, x: Name)
    requires IsRun(states, actions) && CordonsKept(states[0], x) && Finishes(states, actions, k, x)
    requires forall i :: 0 <= i < |actions| && actions[i].CordonChanges? ==> actions[i].name != x
    ensures Settles(NodeOf(states[k + 1], x), TrailOf(states[k + 1], x))
  {
    hide Step, CordonsKept, Settles;
    CordonsOverRuns(states, actions, k, x);
    StepKeepsCordons(states[k], actions[k], states[k + 1], x);
  }

  /**
   * With no outside change to the cordon bit, a component upgrade that reaches Done, on whichever
   * path, leaves it as it was at its Pending pass if that pass recorded it truthfully. In general
   * it does so exactly when it was skipped, or a bit that was set was recorded as set and a drain
   * that was not undone found it set.
   */
  lemma ComponentUpgradeReturnsCordon(states: seq<State>, actions: seq<Action>, k: nat, x: Name)
    requires IsRun(states, actions) && CordonsKept(states[0], x) && Finishes(states, actions, k, x)
    requires forall i :: 0 <= i < |actions| && actions[i].CordonChanges? ==> actions[i].name != x
    requires KindOf(NodeOf(states[k + 1], x)).ComponentUpgrade?
    ensures var m, t := NodeOf(states[k + 1], x), TrailOf(states[k + 1], x);
            var id := IdOf(m);
            && id in t.startCordon && id in t.startMarked
            && (t.startMarked[id] == t.startCordon[id] ==> m.cordoned == t.startCordon[id])
            && (m.cordoned == t.startCordon[id] <==>
                  || id in t.skipped
                  || ((t.startCordon[id] ==> t.startMarked[id]) &&
                      (t.startMarked[id] && id in t.drained ==> t.startCordon[id])))
  {
    hide Step, CordonsKept, ApplyCordonSettled;
    FinishSettles(states, actions, k, x);
  }

  /**
   * An Apply that reaches Done leaves the cordon bit as it was at its Pending pass exactly when it was
   * skipped; or the bit was set, no OS upgrade cleared it for good, and a verification found it on
   * record; or it was not set, and the Apply did not drain, or verified and took its cordon back. A
   * drain without a verification behind it leaves the operator's own cordon on.
   */
  lemma ApplyReturnsCordon(states: seq<State>, actions: seq<Action>, k: nat, x: Name)
    requires IsRun(states, actions) && CordonsKept(states[0], x) && Finishes(states, actions, k, x)
    requires forall i :: 0 <= i < |actions| && actions[i].CordonChanges? ==> actions[i].name != x
    requires KindOf(NodeOf(states[k + 1], x)).Apply?
    ensures var m, t := NodeOf(states[k + 1], x), TrailOf(states[k + 1], x);
            var id := IdOf(m);
            && id in t.startCordon && id in t.startMarked
            && (m.cordoned == t.startCordon[id] <==>
                  || id in t.skipped
                  || (if t.startCordon[id] then
                        (id in t.upgradeVerified ==> id in t.applyDrained) && (id in t.applyVerified ==> t.startMarked[id])
                      else
                        id in t.applyDrained ==> id in t.applyVerified && !t.startMarked[id]))
  {
    hide Step, CordonsKept, CordonSettled;
    FinishSettles(states, actions, k, x);
  }

  /**
   * With no outside change to the cordon bit, in every run: an Apply whose accepted configuration rebooted
   * a machine that Kubernetes showed as ready did so on a cordoned node. If that was not cordoned at its
   * Pending pass, the Apply had drained it, every listed pod having been accepted.
   */
  lemma ReadyMachinesRebootCordoned(states: seq<State>, actions: seq<Action>, k: nat, x: Name, id: nat)
    requires IsRun(states, actions) && k < |states| && CordonsKept(states[0], x) && x in states[k].members
    requires forall i :: 0 <= i < |actions| && actions[i].CordonChanges? ==> actions[i].name != x
    requires id in TrailOf(states[k], x).rebootedReady
    ensures var t := TrailOf(states[k], x);
            id in t.startCordon && (!t.startCordon[id] ==> id in t.applyDrained && id in t.drained)
  {
    hide Step;
    CordonsOverRuns(states, actions, k, x);
  }

  // ---------------------------------------------------------------- a reboot behind the call

  /** A Reboot whose call left on boot `b`, the one on record: it waits, has failed, or has seen another boot since. */
  predicate Awaits(n: Node, b: nat) {
    && n.op.Some? && KindOf(n).Reboot? && b <= n.boot
    && (PhaseOf(n).Verifying? || PhaseOf(n).Failed? || PhaseOf(n).Done?)
    && (PhaseOf(n).Verifying? ==> n.bootID == b)
    && (PhaseOf(n).Done? ==> b < n.boot)
  }

  lemma PassKeepsAwaiting(n: Node, m: Node, pass: Pass, busy: bool, target: nat, b: nat)
    requires NodeMove(n, m, pass, busy, target) && Awaits(n, b)
    ensures Awaits(m, b)
  {
    PassFacts(n, m, pass, busy, target);
    hide ApplyMove, UpgradeMove, ComponentMove, ResetMove, BootstrapMove;
  }

  lemma StepKeepsAwaiting(s: State, a: Action, t: State, x: Name, b: nat)
    requires Step(s, a, t) && x in s.members && x in t.members && Awaits(NodeOf(s, x), b) && IdOf(NodeOf(s, x)) < s.next
    requires NodeOf(t, x).op.Some? && IdOf(NodeOf(t, x)) == IdOf(NodeOf(s, x))
    ensures Awaits(NodeOf(t, x), b)
  {
    hide Step, NodeMove, AtEntry;
    StepFate(s, a, t, x);
    if a.NodePass? && a.name == x && t.members[x] != s.members[x] {
      PassKeepsAwaiting(NodeOf(s, x), NodeOf(t, x), a.pass, OthersActive(s, x), s.target, b);
    }
  }

  /** A Reboot that called on the boot on record is Done only once its machine runs a later one. */
  lemma {:induction false} RebootFollowsCall(states: seq<State>, actions: seq<Action>, x: Name, id: nat, k: nat)
    requires IsRun(states, actions) && k < |states| && Keeps(states, x, id) && id < states[0].next
    requires var n := NodeOf(states[0], x); KindOf(n).Reboot? && PhaseOf(n).Verifying? && n.boot == n.bootID
    ensures Awaits(NodeOf(states[k], x), NodeOf(states[0], x).boot) && id < states[k].next
  {
    hide Step;
    if k > 0 {
      RebootFollowsCall(states, actions, x, id, k - 1);
      StepCounters(states[k - 1], actions[k - 1], states[k]);
      StepKeepsAwaiting(states[k - 1], actions[k - 1], states[k], x, NodeOf(states[0], x).boot);
    }
  }

  /**
   * Exactly if it did not, because its machine had rebooted between the Pending pass and the call, the
   * verification can pass at once, on the boot that the call was sent to.
   */
  lemma VerifiesAtOnceIff(n: Node, target: nat)
    requires n.op.Some? && KindOf(n).Reboot? && PhaseOf(n).Verifying? && Operable(n)
    ensures (exists m, d :: NodeMove(n, m, Run(d), false, target) && m.boot == n.boot && m.op.Some? && PhaseOf(m).Done?) <==> n.boot != n.bootID
  {
    var m := n.(op := Some(n.op.value.(phase := Done)), cordoned := false);
    if n.boot != n.bootID { assert NodeMove(n, m, Run(Verified), false, target) && m.boot == n.boot; }
  }
}
