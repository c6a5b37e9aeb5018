/** When automatic operations may start. Instants are integers; a schedule lists its fire times. */
module MaintenanceWindow {
  import opened Types

  ghost predicate Increasing(f: nat -> int) { forall i, j :: i < j ==> f(i) < f(j) }

  /** The first fire time after `t`, looking from the k-th on: what a cron schedule calls next. */
  function NextFrom(f: nat -> int, t: int, k: nat): (r: nat)
    requires Increasing(f)
    ensures k <= r && f(r) > t && forall j :: k <= j < r ==> f(j) <= t
    decreases if f(k) <= t then t - f(k) + 1 else 0
  {
    if f(k) > t then k
    else
      assert f(k) < f(k + 1);
      NextFrom(f, t, k + 1)
  }

  function Next(f: nat -> int, t: int): int
    requires Increasing(f)
  {
    f(NextFrom(f, t, 0))
  }

  datatype Setting<!T> = Absent | Invalid | Good(value: T)

  /** The options of a maintenance window. `schedule` holds the fire times in the configured time zone. */
  datatype Options = Options(enabled: bool, schedule: Setting<nat -> int>, duration: Setting<int>, zone: bool)

  ghost predicate Sound(o: Options) { o.schedule.Good? ==> Increasing(o.schedule.value) }

  /** Whether the cluster is inside its window: the stored start lies before now. */
  predicate Inside(start: Option<int>, now: int) { start.Some? && start.value < now }

  class Status {
    /** The start of the current or next window; None is the zero time. */
    var start: Option<int>

    constructor ()
      ensures start == None
    {
      start := None;
    }

    /** Brings the stored start up to date, and tells whether it changed. */
    method Update(o: Options, now: int) returns (changed: bool)
      requires Sound(o)
      modifies this
      ensures start.Some? <==> o.enabled && o.schedule.Good? && o.duration.Good? && o.zone
      ensures start.Some? ==> start == Some(Next(o.schedule.value, now - o.duration.value))
      ensures changed <==> start != old(start)
    {
      if !o.enabled || o.schedule.Absent? || o.duration.Absent? {
        changed := Clear();
        return;
      }
      if o.duration.Invalid? {
        changed := Clear();
        return;
      }
      if o.schedule.Invalid? {
        changed := Clear();
        return;
      }
      if !o.zone {
        changed := Clear();
        return;
      }
      var next := Next(o.schedule.value, now - o.duration.value);
      changed := start.None? || start.value != next;
      if changed { start := Some(next); }
    }

    method Clear() returns (changed: bool)
      modifies this
      ensures start == None && (changed <==> old(start).Some?)
    {
      changed := start.Some?;
      start := None;
    }
  }

  // ---------------------------------------------------------------- what the stored start means

  /** It is the least fire time after now minus the duration. */
  lemma StartIsLeast(f: nat -> int, now: int, dur: int, j: nat)
    requires Increasing(f)
    ensures Next(f, now - dur) > now - dur
    ensures f(j) > now - dur ==> Next(f, now - dur) <= f(j)
  {
    var r := NextFrom(f, now - dur, 0);
    if j < r { assert f(j) <= now - dur; }
  }

  lemma StartIsMonotone(f: nat -> int, now: int, later: int, dur: int)
    requires Increasing(f) && now <= later
    ensures Next(f, now - dur) <= Next(f, later - dur)
  {
    StartIsLeast(f, now, dur, NextFrom(f, later - dur, 0));
  }

  /** Inside a window means that a fire time lies less than the duration back. */
  lemma InsideIff(f: nat -> int, now: int, dur: int)
    requires Increasing(f)
    ensures Inside(Some(Next(f, now - dur)), now) <==> exists k: nat :: now - dur < f(k) < now
  {
    var r := NextFrom(f, now - dur, 0);
    if k: nat :| now - dur < f(k) < now { StartIsLeast(f, now, dur, k); }
  }

  // ---------------------------------------------------------------- schedules that leave no gap

  ghost predicate GapsWithin(f: nat -> int, dur: int) { forall k: nat :: f(k + 1) - f(k) <= dur }

  ghost predicate FireTime(f: nat -> int, now: int) { exists k: nat :: f(k) == now }

  ghost predicate InsideAt(f: nat -> int, dur: int, now: int)
    requires Increasing(f)
  {
    Inside(Some(Next(f, now - dur)), now)
  }

  ghost predicate AlwaysInside(f: nat -> int, dur: int)
    requires Increasing(f)
  {
    forall now :: f(0) < now && !FireTime(f, now) ==> InsideAt(f, dur, now)
  }

  /** The last fire time before `now`. */
  lemma LastFire(f: nat -> int, now: int) returns (k: nat)
    requires Increasing(f) && f(0) < now
    ensures f(k) < now <= f(k + 1)
  {
    var r := NextFrom(f, now - 1, 0);
    k := r - 1;
  }

  /**
   * Every instant after the first fire time, fire times aside, is inside a window exactly when no
   * two neighbouring fire times are further apart than the duration.
   */
  lemma AlwaysInsideIff(f: nat -> int, dur: int)
    requires Increasing(f) && dur > 0
    ensures AlwaysInside(f, dur) <==> GapsWithin(f, dur)
  {
    if GapsWithin(f, dur) {
      forall now | f(0) < now && !FireTime(f, now) ensures InsideAt(f, dur, now) {
        var k := LastFire(f, now);
        assert now - dur < f(k) < now;
        InsideIff(f, now, dur);
      }
    } else {
      var k: nat :| f(k + 1) - f(k) > dur;
      UncoveredInstant(f, dur, k);
    }
  }

  lemma UncoveredInstant(f: nat -> int, dur: int, k: nat)
    requires Increasing(f) && dur > 0 && f(k + 1) - f(k) > dur
    ensures !AlwaysInside(f, dur)
  {
    var now := f(k) + dur;
    forall j: nat ensures f(j) <= f(k) || f(j) >= f(k + 1) {
      assert j <= k || j == k + 1 || j > k + 1;
    }
    assert f(0) <= f(k);
    InsideIff(f, now, dur);
    assert !InsideAt(f, dur, now) && !FireTime(f, now);
  }

  /** A fire time itself is inside only if an earlier window is still open. */
  lemma FireTimeInsideIff(f: nat -> int, dur: int, k: nat)
    requires Increasing(f) && dur > 0
    ensures Inside(Some(Next(f, f(k) - dur)), f(k)) <==> k > 0 && f(k) - f(k - 1) < dur
  {
    InsideIff(f, f(k), dur);
    if j: nat :| f(k) - dur < f(j) < f(k) {
      assert j < k;
      assert f(j) <= f(k - 1);
    }
    if k > 0 && f(k) - f(k - 1) < dur { assert f(k) - dur < f(k - 1) < f(k); }
  }
}
