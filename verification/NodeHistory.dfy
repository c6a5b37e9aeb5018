/**
 * What the history of one node says about its operations, over every run: what a call was preceded
 * by, how often the machine rebooted, what an Apply that is Done has achieved.
 */
module NodeHistory {
  import opened Types
  import opened NodeSteps
  import opened Protocol

  // ---------------------------------------------------------------- drain before call

  predicate Disruptive(k: OpKind) { k.Reboot? || k.Shutdown? || k.Reset? }

  predicate CallsDrained(t: Trail) {
    forall c :: c in t.calls && Disruptive(c.kind) && !c.unsafe ==> c.id in t.drained
  }

  predicate DrainInv(n: Node, t: Trail) {
    && CallsDrained(t)
    && (n.op.Some? && Disruptive(KindOf(n)) && !n.op.value.job.unsafe && PhaseOf(n).Applying? ==>
          IdOf(n) in t.drained)
  }

  lemma HandlerKeepsDrainInv(n: Node, m: Node, d: Deed, busy: bool, target: nat, t: Trail)
    requires n.op.Some? && HandlerMove(n, m, d, busy, target) && DrainInv(n, t)
    ensures DrainInv(m, RecordDeed(t, n.op.value, d))
  {
    hide ApplyMove, UpgradeMove, ComponentMove;
    HandlerKeepsFrame(n, m, d, busy, target);
  }

  lemma PassKeepsDrainInv(n: Node, m: Node, pass: Pass, busy: bool, target: nat, t: Trail)
    requires NodeMove(n, m, pass, busy, target) && DrainInv(n, t)
    ensures DrainInv(m, Record(t, n, pass))
  {
    hide HandlerMove;
    match pass
    case Upkeep => UpkeepKeepsIdentity(n, m, target);
    case Start(seen, d) => HandlerKeepsDrainInv(seen, m, d, busy, target, RecordStart(t, n, seen));
    case Run(d) => HandlerKeepsDrainInv(n, m, d, busy, target, t);
  }

  // ---------------------------------------------------------------- reboots

  function Count(b: bool): nat { if b then 1 else 0 }

  predicate RebootInv(n: Node, t: Trail) {
    && n.bootID <= n.boot
    && (n.op.Some? && (KindOf(n).Apply? || KindOf(n).Upgrade?) ==>
          var id := IdOf(n);
          if PhaseOf(n).Pending? then
            id !in t.upgradeVerified && id !in t.applyVerified
          else
            && id in t.startBoot
            && t.startBoot[id] + Count(id in t.upgradeVerified) <= n.bootID
            && t.startBoot[id] + Count(id in t.upgradeVerified) + Count(id in t.applyVerified) <= n.boot
            && (id in t.applyVerified ==> PhaseOf(n).Done?))
  }

  lemma UpgradeKeepsRebootInv(n: Node, m: Node, d: Deed, t: Trail)
    requires n.op.Some? && UpgradeMove(n, m, d) && !PhaseOf(n).Pending? && !Complete(PhaseOf(n))
    requires KindOf(n).Apply? || KindOf(n).Upgrade?
    requires RebootInv(n, t)
    ensures RebootInv(m, RecordDeed(t, n.op.value, d))
  {
    UpgradeKeepsFrame(n, m, d);
  }

  lemma ApplyKeepsRebootInv(n: Node, m: Node, d: Deed, t: Trail)
    requires n.op.Some? && ApplyMove(n, m, d) && KindOf(n).Apply? && !PhaseOf(n).Pending? && !Complete(PhaseOf(n))
    requires RebootInv(n, t)
    ensures RebootInv(m, RecordDeed(t, n.op.value, d))
  {
    hide UpgradeMove;
    ApplyKeepsFrame(n, m, d);
    if IsUpgradePhase(PhaseOf(n)) { UpgradeKeepsRebootInv(n, m, d, t); }
  }

  /** The Pending pass: nothing is verified yet, and the boot ID on record is the machine's own. */
  lemma PendingKeepsRebootInv(n: Node, m: Node, d: Deed, busy: bool, target: nat, t: Trail)
    requires n.op.Some? && HandlerMove(n, m, d, busy, target) && PhaseOf(n).Pending? && RebootInv(n, t)
    requires n.bootID == n.boot && IdOf(n) in t.startBoot && t.startBoot[IdOf(n)] == n.boot
    ensures RebootInv(m, RecordDeed(t, n.op.value, d))
  {
    hide ComponentMove, PowerMove, ResetMove, BootstrapMove;
    HandlerKeepsFrame(n, m, d, busy, target);
    HandlerKeepsBootID(n, m, d, busy, target);
  }

  /** Only a verified OS upgrade re-records the boot ID. */
  lemma HandlerKeepsBootID(n: Node, m: Node, d: Deed, busy: bool, target: nat)
    requires n.op.Some? && HandlerMove(n, m, d, busy, target)
    ensures m.bootID == n.bootID || m.bootID == n.boot
    ensures !PhaseOf(n).UpgradeVerifying? ==> m.bootID == n.bootID
  {
  }

  lemma RunKeepsRebootInv(n: Node, m: Node, d: Deed, busy: bool, target: nat, t: Trail)
    requires n.op.Some? && HandlerMove(n, m, d, busy, target) && Active(PhaseOf(n)) && RebootInv(n, t)
    ensures RebootInv(m, RecordDeed(t, n.op.value, d))
  {
    hide ApplyMove, UpgradeMove, ComponentMove, PowerMove, ResetMove, BootstrapMove;
    HandlerKeepsFrame(n, m, d, busy, target);
    HandlerKeepsBootID(n, m, d, busy, target);
    if !busy && KindOf(n).Apply? { ApplyKeepsRebootInv(n, m, d, t); }
    if !busy && KindOf(n).Upgrade? { UpgradeKeepsRebootInv(n, m, d, t); }
  }

  lemma PassKeepsRebootInv(n: Node, m: Node, pass: Pass, busy: bool, target: nat, t: Trail)
    requires NodeMove(n, m, pass, busy, target) && RebootInv(n, t)
    ensures RebootInv(m, Record(t, n, pass))
  {
    hide HandlerMove;
    match pass
    case Upkeep => UpkeepKeepsIdentity(n, m, target);
    case Start(seen, d) => PendingKeepsRebootInv(seen, m, d, busy, target, RecordStart(t, n, seen));
    case Run(d) => RunKeepsRebootInv(n, m, d, busy, target, t);
  }

  // ---------------------------------------------------------------- what an operation that is Done has done

  predicate Sent(job: Job, id: nat, t: Trail) { Call(job.kind, id, job.unsafe) in t.calls }

  /** What Done means, type by type. */
  predicate Accomplished(job: Job, id: nat, t: Trail) {
    match job.kind
    case Provision => true
    case Bootstrap => Sent(job, id, t)
    case Shutdown => Sent(job, id, t)
    case Reboot => Sent(job, id, t) && id in t.verified
    case Reset => Sent(job, id, t) && id in t.verified
    case Apply => id in t.skipped || id in t.accepted
    case Upgrade => id in t.skipped || id in t.upgradeVerified
    case ComponentUpgrade => id in t.skipped || (id in t.accepted && id in t.verified)
  }

  /** What must have happened before an operation is in this phase. */
  predicate Presupposed(job: Job, id: nat, p: Phase, t: Trail) {
    match p
    case Done => Accomplished(job, id, t)
    case ApplyVerifying => job.kind.Apply? ==> id in t.accepted
    case KubeletReboot => job.kind.ComponentUpgrade? ==> id in t.accepted
    case VerifyReboot => job.kind.ComponentUpgrade? ==> id in t.accepted
    case Verifying =>
      && (job.kind.ComponentUpgrade? ==> id in t.accepted)
      && (job.kind.Reboot? || job.kind.Shutdown? || job.kind.Reset? ==> Sent(job, id, t))
    case UpgradeUncordon => job.kind.Upgrade? ==> id in t.upgradeVerified
    case _ => true
  }

  predicate AcceptInv(n: Node, t: Trail) { n.op.Some? ==> Presupposed(n.op.value.job, IdOf(n), PhaseOf(n), t) }

  lemma ApplyKeepsAcceptInv(n: Node, m: Node, d: Deed, t: Trail)
    requires n.op.Some? && ApplyMove(n, m, d) && KindOf(n).Apply? && AcceptInv(n, t)
    ensures AcceptInv(m, RecordDeed(t, n.op.value, d))
  {
  }

  lemma UpgradeKeepsAcceptInv(n: Node, m: Node, d: Deed, t: Trail)
    requires n.op.Some? && UpgradeMove(n, m, d) && KindOf(n).Upgrade? && AcceptInv(n, t)
    ensures AcceptInv(m, RecordDeed(t, n.op.value, d))
  {
  }

  lemma ComponentKeepsAcceptInv(n: Node, m: Node, d: Deed, target: nat, t: Trail)
    requires n.op.Some? && ComponentMove(n, m, d, target) && KindOf(n).ComponentUpgrade? && AcceptInv(n, t)
    ensures AcceptInv(m, RecordDeed(t, n.op.value, d))
  {
  }

  lemma HandlerKeepsAcceptInv(n: Node, m: Node, d: Deed, busy: bool, target: nat, t: Trail)
    requires n.op.Some? && HandlerMove(n, m, d, busy, target) && AcceptInv(n, t)
    ensures AcceptInv(m, RecordDeed(t, n.op.value, d))
  {
    hide ComponentMove, ApplyMove, UpgradeMove;
    HandlerKeepsFrame(n, m, d, busy, target);
    if !busy && KindOf(n).Apply? { ApplyKeepsAcceptInv(n, m, d, t); }
    if !busy && KindOf(n).Upgrade? { UpgradeKeepsAcceptInv(n, m, d, t); }
    if !busy && KindOf(n).ComponentUpgrade? { ComponentKeepsAcceptInv(n, m, d, target, t); }
  }

  lemma PassKeepsAcceptInv(n: Node, m: Node, pass: Pass, busy: bool, target: nat, t: Trail)
    requires NodeMove(n, m, pass, busy, target) && AcceptInv(n, t)
    ensures AcceptInv(m, Record(t, n, pass))
  {
    hide HandlerMove;
    match pass
    case Upkeep => UpkeepKeepsIdentity(n, m, target);
    case Start(seen, d) => HandlerKeepsAcceptInv(seen, m, d, busy, target, RecordStart(t, n, seen));
    case Run(d) => HandlerKeepsAcceptInv(n, m, d, busy, target, t);
  }

  // ---------------------------------------------------------------- each account by itself

  ghost predicate DrainHistory(s: State) { forall x :: x in s.members ==> DrainInv(NodeOf(s, x), TrailOf(s, x)) }

  ghost predicate AcceptHistory(s: State) { forall x :: x in s.members ==> AcceptInv(NodeOf(s, x), TrailOf(s, x)) }

  lemma DrainStep(s: State, a: Action, t: State)
    requires Step(s, a, t) && DrainHistory(s)
    ensures DrainHistory(t)
  {
    hide Step, NodeMove, AtEntry, Record;
    forall x | x in t.members ensures DrainInv(NodeOf(t, x), TrailOf(t, x)) {
      StepFate(s, a, t, x);
      if a.NodePass? && a.name == x && x in s.members && t.members[x] != s.members[x] {
        hide DrainInv;
        PassKeepsDrainInv(NodeOf(s, x), NodeOf(t, x), a.pass, OthersActive(s, x), s.target, TrailOf(s, x));
      }
    }
  }

  lemma AcceptStep(s: State, a: Action, t: State)
    requires Step(s, a, t) && AcceptHistory(s)
    ensures AcceptHistory(t)
  {
    hide Step, NodeMove, AtEntry, Record;
    forall x | x in t.members ensures AcceptInv(NodeOf(t, x), TrailOf(t, x)) {
      StepFate(s, a, t, x);
      if a.NodePass? && a.name == x && x in s.members && t.members[x] != s.members[x] {
        hide AcceptInv;
        PassKeepsAcceptInv(NodeOf(s, x), NodeOf(t, x), a.pass, OthersActive(s, x), s.target, TrailOf(s, x));
      }
    }
  }

  // ---------------------------------------------------------------- runs

  /** Ids on record have been handed out. */
  predicate KnownIds(n: Node, t: Trail, next: nat) {
    && (n.op.Some? ==> IdOf(n) < next)
    && (forall id :: id in t.upgradeVerified ==> id < next)
    && (forall id :: id in t.applyVerified ==> id < next)
  }

  ghost predicate MemberInv(m: Member, next: nat) {
    && KnownIds(m.node, m.trail, next)
    && DrainInv(m.node, m.trail) && RebootInv(m.node, m.trail) && AcceptInv(m.node, m.trail)
  }

  ghost predicate HistoryInv(s: State) {
    forall x :: x in s.members ==> MemberInv(s.members[x], s.next)
  }

  lemma PassKeepsKnownIds(n: Node, m: Node, pass: Pass, busy: bool, target: nat, t: Trail, next: nat)
    requires NodeMove(n, m, pass, busy, target) && KnownIds(n, t, next)
    ensures KnownIds(m, Record(t, n, pass), next)
  {
    PassFacts(n, m, pass, busy, target);
  }

  lemma PassKeepsMember(w: Member, m: Node, pass: Pass, busy: bool, target: nat, next: nat)
    requires NodeMove(w.node, m, pass, busy, target) && MemberInv(w, next)
    ensures MemberInv(Member(m, Record(w.trail, w.node, pass), w.sawBootstrap), next)
  {
    hide NodeMove, Record, KnownIds, DrainInv, RebootInv, AcceptInv;
    PassKeepsKnownIds(w.node, m, pass, busy, target, w.trail, next);
    PassKeepsDrainInv(w.node, m, pass, busy, target, w.trail);
    PassKeepsRebootInv(w.node, m, pass, busy, target, w.trail);
    PassKeepsAcceptInv(w.node, m, pass, busy, target, w.trail);
  }

  lemma LandingKeepsMember(w: Member, v: Member, next: nat)
    requires MemberInv(w, next)
    requires v.node.op.Some? && PhaseOf(v.node).Pending? && IdOf(v.node) == next
    requires v.node == w.node.(op := v.node.op) && v.trail == w.trail
    ensures MemberInv(v, next + 1)
  {
  }

  lemma AlterationKeepsMember(w: Member, v: Member, next: nat)
    requires MemberInv(w, next) && Altered(w.node, v.node) && v.trail == w.trail
    ensures MemberInv(v, next)
  {
  }

  lemma LaterKeepsMember(w: Member, next: nat, later: nat)
    requires MemberInv(w, next) && next <= later
    ensures MemberInv(w, later)
  {
  }

  lemma LandedMember(s: State, a: Action, t: State, x: Name)
    requires x in s.members && x in t.members && MemberInv(s.members[x], s.next) && Landed(s, a, t, x)
    ensures MemberInv(t.members[x], s.next + 1)
  {
    hide MemberInv, Launches;
    LandingKeepsMember(s.members[x], t.members[x], s.next);
  }

  lemma MemberStep(s: State, a: Action, t: State, x: Name)
    requires Step(s, a, t) && HistoryInv(s) && x in t.members
    ensures MemberInv(t.members[x], t.next)
  {
    hide Step, NodeMove, Record, Altered;
    StepCounters(s, a, t);
    StepFate(s, a, t, x);
    if x in s.members {
      hide MemberInv, Landed;
      var w, v := s.members[x], t.members[x];
      LaterKeepsMember(w, s.next, t.next);
      if v != w {
        if Landed(s, a, t, x) {
          LandedMember(s, a, t, x);
          assert Lands(a) by { LandedLands(s, a, t, x); }
        } else if a.NodePass? {
          PassKeepsMember(w, v.node, a.pass, OthersActive(s, x), s.target, s.next);
        } else {
          AlterationKeepsMember(w, v, s.next);
        }
      }
    }
  }

  lemma {:induction false} HistoryOverRuns(states: seq<State>, actions: seq<Action>, k: nat)
    requires IsRun(states, actions) && k < |states| && HistoryInv(states[0])
    ensures HistoryInv(states[k])
  {
    hide Step, MemberInv;
    if k > 0 {
      HistoryOverRuns(states, actions, k - 1);
      forall x | x in states[k].members ensures MemberInv(states[k].members[x], states[k].next) {
        MemberStep(states[k - 1], actions[k - 1], states[k], x);
      }
    }
  }

  /**
   * An Apply that is Done has seen one reboot since its Pending pass for each of the two
   * verifications it went through: the OS upgrade's and its own.
   */
  lemma VerifiedApplyHasRebooted(states: seq<State>, actions: seq<Action>, k: nat, x: Name)
    requires IsRun(states, actions) && k < |states| && HistoryInv(states[0]) && x in states[k].members
    requires var n := NodeOf(states[k], x); n.op.Some? && KindOf(n).Apply? && PhaseOf(n).Done?
    ensures var n, t := NodeOf(states[k], x), TrailOf(states[k], x);
            && IdOf(n) in t.startBoot
            && t.startBoot[IdOf(n)] + Count(IdOf(n) in t.upgradeVerified) + Count(IdOf(n) in t.applyVerified) <= n.boot
  {
    hide Step;
    HistoryOverRuns(states, actions, k);
  }

  lemma {:induction false} AcceptOverRuns(states: seq<State>, actions: seq<Action>, k: nat)
    requires IsRun(states, actions) && k < |states| && AcceptHistory(states[0])
    ensures AcceptHistory(states[k])
  {
    hide Step, AcceptHistory;
    if k > 0 {
      AcceptOverRuns(states, actions, k - 1);
      AcceptStep(states[k - 1], actions[k - 1], states[k]);
    }
  }

  /**
   * What an operation that is Done has done, in every run. A Bootstrap, a Shutdown, a Reboot and a
   * Reset sent their calls, the latter two passed their last check; an Apply found the node in sync or
   * had its configuration accepted; an OS upgrade was not needed or was verified; a component upgrade
   * was skipped, or had its configuration accepted and passed its last check.
   */
  lemma DoneMeansDone(states: seq<State>, actions: seq<Action>, k: nat, x: Name)
    requires IsRun(states, actions) && k < |states| && AcceptHistory(states[0]) && x in states[k].members
    requires NodeOf(states[k], x).op.Some? && PhaseOf(NodeOf(states[k], x)).Done?
    ensures var n, t := NodeOf(states[k], x), TrailOf(states[k], x);
            var id, call := IdOf(n), Call(KindOf(n), IdOf(n), n.op.value.job.unsafe);
            && (KindOf(n).Bootstrap? || KindOf(n).Shutdown? ==> call in t.calls)
            && (KindOf(n).Reboot? || KindOf(n).Reset? ==> call in t.calls && id in t.verified)
            && (KindOf(n).Apply? ==> id in t.skipped || id in t.accepted)
            && (KindOf(n).Upgrade? ==> id in t.skipped || id in t.upgradeVerified)
            && (KindOf(n).ComponentUpgrade? ==> id in t.skipped || (id in t.accepted && id in t.verified))
  {
    hide Step;
    AcceptOverRuns(states, actions, k);
    assert AcceptInv(NodeOf(states[k], x), TrailOf(states[k], x));
  }

  // ---------------------------------------------------------------- the drain behind a call

  function DeedOf(pass: Pass): Deed {
    match pass
    case Upkeep => Nothing
    case Start(_, d) => d
    case Run(d) => d
  }

  /** In this step operation `id` cordoned its node and had the removal of every listed pod accepted. */
  predicate Drains(s: State, a: Action, t: State, x: Name, id: nat) {
    && a.NodePass? && a.name == x && x in s.members && x in t.members
    && NodeOf(s, x).op.Some? && IdOf(NodeOf(s, x)) == id
    && DeedOf(a.pass).Passed? && FullPass(DeedOf(a.pass).pass) && NodeOf(t, x).cordoned
  }

  lemma PassedMeansDrained(n: Node, m: Node, d: Deed, busy: bool, target: nat)
    requires n.op.Some? && HandlerMove(n, m, d, busy, target) && d.Passed?
    ensures FullPass(d.pass) && m.cordoned
  {
  }

  lemma NewlyDrained(s: State, a: Action, t: State, x: Name, id: nat)
    requires Step(s, a, t) && x in t.members && id in TrailOf(t, x).drained
    requires x in s.members ==> id !in TrailOf(s, x).drained
    ensures Drains(s, a, t, x, id)
  {
    hide Step, HandlerMove, AtEntry;
    StepFate(s, a, t, x);
    if a.NodePass? && a.name == x && x in s.members && t.members[x] != s.members[x] {
      match a.pass
      case Upkeep =>
      case Start(seen, d) => if d.Passed? { PassedMeansDrained(seen, NodeOf(t, x), d, OthersActive(s, x), s.target); }
      case Run(d) => if d.Passed? { PassedMeansDrained(NodeOf(s, x), NodeOf(t, x), d, OthersActive(s, x), s.target); }
    }
  }

  lemma {:induction false} DrainedByAPass(states: seq<State>, actions: seq<Action>, k: nat, x: Name, id: nat) returns (j: nat)
    requires IsRun(states, actions) && k < |states|
    requires x in states[0].members ==> id !in TrailOf(states[0], x).drained
    requires x in states[k].members && id in TrailOf(states[k], x).drained
    ensures j < k && Drains(states[j], actions[j], states[j + 1], x, id)
  {
    hide Step, Drains;
    if k > 0 {
      if x in states[k - 1].members && id in TrailOf(states[k - 1], x).drained {
        j := DrainedByAPass(states, actions, k - 1, x, id);
      } else {
        NewlyDrained(states[k - 1], actions[k - 1], states[k], x, id);
        j := k - 1;
      }
    }
  }

  /** This step sends the reboot, shutdown or reset call of a safe operation. */
  predicate SendsSafeCall(s: State, a: Action, x: Name) {
    && a.NodePass? && a.name == x && x in s.members && DeedOf(a.pass).Called?
    && NodeOf(s, x).op.Some? && Disruptive(KindOf(NodeOf(s, x))) && !NodeOf(s, x).op.value.job.unsafe
  }

  /** A call leaves only from Applying. */
  lemma CallsLeaveFromApplying(n: Node, m: Node, pass: Pass, busy: bool, target: nat)
    requires NodeMove(n, m, pass, busy, target) && DeedOf(pass).Called?
    ensures n.op.Some? && PhaseOf(n).Applying?
  {
  }

  /**
   * Over all runs and restarts, a safe Reboot, Shutdown or Reset sends its call only after a full
   * drain pass of that very operation.
   */
  lemma CallFollowsDrain(states: seq<State>, actions: seq<Action>, k: nat, x: Name) returns (j: nat)
    requires IsRun(states, actions) && k < |actions| && HistoryInv(states[0])
    requires x in states[0].members ==> TrailOf(states[0], x).drained == {}
    requires SendsSafeCall(states[k], actions[k], x)
    ensures j < k && Drains(states[j], actions[j], states[j + 1], x, IdOf(NodeOf(states[k], x)))
  {
    HistoryOverRuns(states, actions, k);
    assert PassStep(states[k], states[k + 1], x, actions[k].pass);
    hide Step, Drains, NodeMove;
    CallsLeaveFromApplying(NodeOf(states[k], x), NodeOf(states[k + 1], x), actions[k].pass, OthersActive(states[k], x), states[k].target);
    j := DrainedByAPass(states, actions, k, x, IdOf(NodeOf(states[k], x)));
  }
}
