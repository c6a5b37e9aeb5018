/**
 * Optimistic updates of one stored object: read (perhaps a stale cached copy), change, write back
 * under the version that was read, and try again on a conflict.
 */
module ObjectStore {

  /** A change that made it into the store, and who made it. */
  datatype Commit<!T> = Commit(writer: nat, change: T -> T)

  /** The object after the changes of `log`, each applied atomically, in this order. */
  function Fold<T>(x: T, log: seq<Commit<T>>): (r: T) {
    if log == [] then x else log[|log| - 1].change(Fold(x, log[..|log| - 1]))
  }

  lemma {:induction false} FoldSplits<T>(x: T, first: seq<Commit<T>>, second: seq<Commit<T>>)
    ensures Fold(x, first + second) == Fold(Fold(x, first), second)
    decreases |second|
  {
    if second == [] {
      assert first + second == first;
    } else {
      var rest := second[..|second| - 1];
      assert (first + second)[..|first + second| - 1] == first + rest;
      FoldSplits(x, first, rest);
    }
  }

  /** How many commits of `log` are `writer`'s. */
  function Count<T>(log: seq<Commit<T>>, writer: nat): nat {
    if log == [] then 0
    else Count(log[..|log| - 1], writer) + if log[|log| - 1].writer == writer then 1 else 0
  }

  lemma {:induction false} CountSplits<T>(first: seq<Commit<T>>, second: seq<Commit<T>>, writer: nat)
    ensures Count(first + second, writer) == Count(first, writer) + Count(second, writer)
    decreases |second|
  {
    if second == [] {
      assert first + second == first;
    } else {
      var rest := second[..|second| - 1];
      assert (first + second)[..|first + second| - 1] == first + rest;
      CountSplits(first, rest, writer);
    }
  }

  lemma {:induction false} CountOthers<T>(log: seq<Commit<T>>, writer: nat)
    requires forall i :: 0 <= i < |log| ==> log[i].writer != writer
    ensures Count(log, writer) == 0
  {
    if log != [] { CountOthers(log[..|log| - 1], writer); }
  }

  /** `ReplyLost`: the write took effect but its caller was told of an error that is no conflict. */
  datatype Fault = NoFault | ReadFails | WriteFails | ReplyLost

  /**
   * What the environment does to one attempt: how far behind the cache is, and what others commit
   * before the read and between the read and the write.
   */
  datatype Attempt<!T> = Attempt(before: seq<Commit<T>>, lag: nat, between: seq<Commit<T>>, fault: Fault)

  predicate ByOthers<T>(log: seq<Commit<T>>, me: nat) { forall i :: 0 <= i < |log| ==> log[i].writer != me }

  /** A fresh read, and nobody in between. */
  predicate Undisturbed<T>(a: Attempt<T>) { a.lag == 0 && |a.between| == 0 }

  predicate FaultFree<T>(attempts: seq<Attempt<T>>, upTo: nat) {
    forall i :: 0 <= i < |attempts| && i <= upTo ==> attempts[i].fault.NoFault?
  }

  ghost predicate Grows<T>(before: seq<T>, after: seq<T>) { |before| <= |after| && after[..|before|] == before }

  datatype End = Success | Lost | Conflict | Error

  /** Every object is the first one with the changes committed up to then. */
  ghost predicate Explained<T>(objects: seq<T>, log: seq<Commit<T>>)
    requires |objects| == |log| + 1
  {
    forall v :: 0 <= v < |objects| ==> objects[v] == Fold(objects[0], log[..v])
  }

  class Store<T> {
    /** Every object there was; its index is its resource version, the last one is current. */
    var objects: seq<T>
    ghost var log: seq<Commit<T>>

    ghost predicate Valid()
      reads this
    {
      |objects| == |log| + 1 && Explained(objects, log)
    }

    constructor (first: T)
      ensures Valid() && objects == [first] && log == []
    {
      objects, log := [first], [];
    }

    /** The current object is the first one with all committed changes applied in commit order. */
    lemma CurrentIsFold()
      requires Valid()
      ensures objects[|objects| - 1] == Fold(objects[0], log)
    {
      assert log[..|log|] == log;
    }

    /** Seen from any version, the current object is that one with all changes committed since. */
    lemma CurrentSince(v: nat)
      requires Valid() && v < |objects|
      ensures objects[|objects| - 1] == Fold(objects[v], log[v..])
    {
      CurrentIsFold();
      assert log == log[..v] + log[v..];
      FoldSplits(objects[0], log[..v], log[v..]);
    }

    method Get(lag: nat) returns (version: nat, copy: T)
      requires Valid()
      ensures version < |objects| && copy == objects[version]
      ensures lag == 0 ==> version == |objects| - 1
    {
      version := if lag < |objects| then |objects| - 1 - lag else 0;
      copy := objects[version];
    }

    /** Compare and swap: refused unless `version` is still the current one. */
    method Put(version: nat, copy: T, ghost commit: Commit<T>) returns (conflict: bool)
      requires Valid() && version < |objects| && copy == commit.change(objects[version])
      modifies this
      ensures Valid() && objects[0] == old(objects[0])
      ensures conflict <==> version != |old(objects)| - 1
      ensures conflict ==> objects == old(objects) && log == old(log)
      ensures !conflict ==> objects == old(objects) + [copy] && log == old(log) + [commit]
    {
      conflict := version != |objects| - 1;
      if !conflict {
        ghost var was := log;
        objects, log := objects + [copy], log + [commit];
        assert log[..|was|] == was[..|was|];
        assert log[..|was| + 1] == log;
        assert forall v :: 0 <= v <= |was| ==> log[..v] == was[..v];
      }
    }

    /** Other writers commit; each of them is subject to the same compare and swap. */
    method Interfere(commits: seq<Commit<T>>)
      requires Valid()
      modifies this
      ensures Valid() && log == old(log) + commits && objects[0] == old(objects[0])
    {
      var i := 0;
      while i < |commits|
        invariant i <= |commits| && Valid() && log == old(log) + commits[..i] && objects[0] == old(objects[0])
      {
        assert commits[..i + 1] == commits[..i] + [commits[i]];
        var _ := Put(|objects| - 1, commits[i].change(objects[|objects| - 1]), commits[i]);
        i := i + 1;
      }
      assert commits[..i] == commits;
    }

    /** One attempt: refresh, change, write back. Only a commit adds to what `me` has committed. */
    method Try(me: nat, change: T -> T, a: Attempt<T>) returns (end: End)
      requires Valid() && ByOthers(a.before, me) && ByOthers(a.between, me)
      modifies this
      ensures Valid() && objects[0] == old(objects[0]) && Grows(old(log), log)
      ensures end.Success? || end.Lost? ==>
                && |old(log)| < |log| && log[|log| - 1] == Commit(me, change)
                && objects[|objects| - 1] == change(objects[|objects| - 2])
                && Count(log, me) == Count(old(log), me) + 1
      ensures end.Error? || end.Conflict? ==> Count(log, me) == Count(old(log), me)
      ensures end.Lost? ==> a.fault.ReplyLost?
      ensures end.Error? ==> !a.fault.NoFault?
      ensures end.Conflict? ==> !Undisturbed(a)
    {
      hide Explained, Count, ByOthers;
      InterfereQuietly(a.before, me);
      if a.fault.ReadFails? { return Error; }
      var version, copy := Get(a.lag);
      InterfereQuietly(a.between, me);
      if a.fault.WriteFails? { return Error; }
      ghost var was := log;
      var conflict := Put(version, change(copy), Commit(me, change));
      if conflict { return Conflict; }
      assert Count(log, me) == Count(was, me) + 1 by { CountNext(was, Commit(me, change)); }
      end := if a.fault.ReplyLost? then Lost else Success;
    }

    /**
     * The update helpers of both controllers, under at most |attempts| attempts. A success has
     * committed `change` exactly once, as the last commit, on the object that was current right
     * before it; a failure has committed it at most once, and not at all unless a reply got lost.
     * One undisturbed attempt is enough to succeed.
     */
    method Update(me: nat, change: T -> T, attempts: seq<Attempt<T>>) returns (ok: bool)
      requires Valid()
      requires forall i :: 0 <= i < |attempts| ==> ByOthers(attempts[i].before, me) && ByOthers(attempts[i].between, me)
      modifies this
      ensures Valid() && objects[0] == old(objects[0]) && Grows(old(log), log)
      ensures ok ==>
                && |old(log)| < |log| && log[|log| - 1] == Commit(me, change)
                && objects[|objects| - 1] == change(objects[|objects| - 2])
                && Count(log, me) == Count(old(log), me) + 1
      ensures !ok ==> Count(old(log), me) <= Count(log, me) <= Count(old(log), me) + 1
      ensures !ok && (forall i :: 0 <= i < |attempts| ==> !attempts[i].fault.ReplyLost?) ==> Count(log, me) == Count(old(log), me)
      ensures (exists i :: 0 <= i < |attempts| && Undisturbed(attempts[i]) && FaultFree(attempts, i)) ==> ok
    {
      hide Explained, Count, Undisturbed;
      var k := 0;
      while k < |attempts|
        invariant k <= |attempts| && Valid() && objects[0] == old(objects[0]) && Grows(old(log), log)
        invariant Count(log, me) == Count(old(log), me)
        invariant forall i :: 0 <= i < k ==> !Undisturbed(attempts[i])
      {
        var end := Try(me, change, attempts[k]);
        if !end.Conflict? {
          return end.Success?;
        }
        k := k + 1;
      }
      ok := false;
    }

    method InterfereQuietly(commits: seq<Commit<T>>, me: nat)
      requires Valid() && ByOthers(commits, me)
      modifies this
      ensures Valid() && log == old(log) + commits && Count(log, me) == Count(old(log), me)
      ensures |objects| == |old(objects)| + |commits| && objects[..|old(objects)|] == old(objects)
    {
      Interfere(commits);
      CountSplits(old(log), commits, me);
      CountOthers(commits, me);
      forall v | 0 <= v < |old(objects)| ensures objects[v] == old(objects)[v] {
        assert log[..v] == old(log)[..v];
      }
    }
  }

  lemma CountNext<T>(log: seq<Commit<T>>, commit: Commit<T>)
    ensures Count(log + [commit], commit.writer) == Count(log, commit.writer) + 1
  {
    assert (log + [commit])[..|log|] == log;
  }
}
