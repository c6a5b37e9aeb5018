/** What a Reset asks of a machine, and what is concluded from it afterwards. */
module ResetRequest {
  import opened Types
  import opened Protocol

  datatype Mode = Unspecified | AllDisks | SystemDisk | UserDisks | Unknown

  datatype Arguments = Arguments(mode: Mode, labels: seq<string>, disks: seq<string>, graceful: Option<bool>)

  /** The mode sent to the machine; an unspecified one is inferred, for this call only. */
  function SentMode(a: Arguments): Mode {
    match a.mode
    case Unspecified =>
      if a.labels != [] && a.disks == [] then SystemDisk
      else if a.disks != [] && a.labels == [] then UserDisks
      else AllDisks
    case Unknown => AllDisks
    case m => m
  }

  predicate WipesState(mode: Mode, labels: seq<string>) { mode != UserDisks && (labels == [] || "STATE" in labels) }

  /** The machine lost its STATE partition. */
  predicate StateIsGone(a: Arguments) { WipesState(SentMode(a), a.labels) }

  /** The node is declared unprovisioned: decided by the stored arguments, which the inference never reached. */
  predicate TakenAsGone(a: Arguments) { WipesState(a.mode, a.labels) }

  /**
   * The verification judges a reset rightly exactly unless it was asked to wipe user disks only, without
   * naming the mode: then a machine that kept its STATE is declared unprovisioned.
   */
  lemma JudgedRightlyIff(a: Arguments)
    ensures TakenAsGone(a) == StateIsGone(a) <==> !(a.mode == Unspecified && a.disks != [] && a.labels == [])
    ensures StateIsGone(a) ==> TakenAsGone(a)
  {
  }

  /** A control plane that etcd can be left to. */
  predicate Healthy(n: Node) { !n.deleting && Idle(n) && n.ready == Yes }

  /** Another control plane among these is healthy. */
  predicate SomeHealthy(list: seq<(Name, Node)>, x: Name) {
    exists i :: 0 <= i < |list| && list[i].0 != x && Healthy(list[i].1)
  }

  /** Count the others that are healthy. */
  method CountHealthy(list: seq<(Name, Node)>, x: Name) returns (count: nat)
    ensures count > 0 <==> SomeHealthy(list, x)
  {
    count := 0;
    for i := 0 to |list|
      invariant count > 0 <==> exists j :: 0 <= j < i && list[j].0 != x && Healthy(list[j].1)
    {
      if list[i].0 != x && Healthy(list[i].1) { count := count + 1; }
    }
  }

  /** `own` are the control planes of the cluster, `foreign` those of clusters of that name in other namespaces. */
  method DecideGraceful(a: Arguments, n: Node, x: Name, own: seq<(Name, Node)>, foreign: seq<(Name, Node)>) returns (graceful: bool)
    ensures a.graceful.Some? ==> graceful == a.graceful.value
    ensures a.graceful.None? ==> (graceful <==> n.role.Worker? || SomeHealthy(own, x) || SomeHealthy(foreign, x))
  {
    graceful := true;
    if a.graceful.Some? {
      graceful := a.graceful.value;
    } else if n.role.Controlplane? {
      // the list is not limited to the namespace of the cluster
      var list := own + foreign;
      var count := CountHealthy(list, x);
      SomeHealthyJoins(own, foreign, x);
      if count == 0 { graceful := false; }
    }
  }

  lemma SomeHealthyJoins(a: seq<(Name, Node)>, b: seq<(Name, Node)>, x: Name)
    ensures SomeHealthy(a + b, x) <==> SomeHealthy(a, x) || SomeHealthy(b, x)
  {
    if i :| 0 <= i < |a| && a[i].0 != x && Healthy(a[i].1) { assert (a + b)[i] == a[i]; }
    if i :| 0 <= i < |b| && b[i].0 != x && Healthy(b[i].1) { assert (a + b)[|a| + i] == b[i]; }
    if i :| 0 <= i < |a + b| && (a + b)[i].0 != x && Healthy((a + b)[i].1) {
      assert if i < |a| then a[i] == (a + b)[i] else b[i - |a|] == (a + b)[i];
    }
  }
}
