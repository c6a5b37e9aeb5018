/** The list of provisioned nodes: control planes first, then by name. */
module EligibleNodes {
  import opened Types
  import opened Protocol

  // ---------------------------------------------------------------- names are totally ordered

  lemma {:induction false} LessIsStrict(a: Name, b: Name)
    ensures Less(a, b) ==> a != b && !Less(b, a)
    decreases |a|
  {
    if a != "" && b != "" { LessIsStrict(a[1..], b[1..]); }
  }

  lemma {:induction false} LessIsTransitive(a: Name, b: Name, c: Name)
    requires Less(a, b) && Less(b, c)
    ensures Less(a, c)
    decreases |a|
  {
    if a != "" && a[0] == b[0] && b[0] == c[0] { LessIsTransitive(a[1..], b[1..], c[1..]); }
  }

  lemma {:induction false} LessIsTotal(a: Name, b: Name)
    ensures a == b || Less(a, b) || Less(b, a)
    decreases |a|
  {
    if a != "" && b != "" {
      LessIsTotal(a[1..], b[1..]);
      if a[1..] == b[1..] && a[0] == b[0] { assert a == [a[0]] + a[1..] && b == [b[0]] + b[1..]; }
    }
  }

  // ---------------------------------------------------------------- and so are nodes

  /** The comparison the list is sorted by, on two listed nodes. */
  predicate Before(s: State, a: Name, b: Name)
    requires a in s.members && b in s.members
  {
    if NodeOf(s, a).role != NodeOf(s, b).role then NodeOf(s, a).role.Controlplane? else Less(a, b)
  }

  lemma BeforeIsStrict(s: State, a: Name, b: Name)
    requires a in s.members && b in s.members && Before(s, a, b)
    ensures a != b && !Before(s, b, a)
  {
    LessIsStrict(a, b);
  }

  lemma BeforeIsTransitive(s: State, a: Name, b: Name, c: Name)
    requires a in s.members && b in s.members && c in s.members && Before(s, a, b) && Before(s, b, c)
    ensures Before(s, a, c)
  {
    if Less(a, b) && Less(b, c) { LessIsTransitive(a, b, c); }
  }

  lemma BeforeIsTotal(s: State, a: Name, b: Name)
    requires a in s.members && b in s.members && a != b
    ensures Before(s, a, b) || Before(s, b, a)
  {
    LessIsTotal(a, b);
  }

  predicate Known(s: State, list: seq<Name>) { forall i :: 0 <= i < |list| ==> list[i] in s.members }

  predicate Sorted(s: State, list: seq<Name>)
    requires Known(s, list)
  {
    forall i, j :: 0 <= i < j < |list| ==> Before(s, list[i], list[j])
  }

  /** A sorted list is determined by its elements. */
  lemma {:induction false} SortedIsUnique(s: State, a: seq<Name>, b: seq<Name>)
    requires Known(s, a) && Known(s, b) && Sorted(s, a) && Sorted(s, b)
    requires forall x :: x in a <==> x in b
    ensures a == b
    decreases |a|
  {
    assert b != [] ==> b[0] in b && b[0] in a;
    if a != [] {
      assert a[0] in a && a[0] in b;
      assert b[0] in b && b[0] in a;
      SameHead(s, a, b);
      TailElements(s, a);
      TailElements(s, b);
      SortedIsUnique(s, a[1..], b[1..]);
      assert a == [a[0]] + a[1..] && b == [b[0]] + b[1..];
    }
  }

  lemma SameHead(s: State, a: seq<Name>, b: seq<Name>)
    requires Known(s, a) && Known(s, b) && Sorted(s, a) && Sorted(s, b)
    requires a != [] && b != [] && a[0] in b && b[0] in a
    ensures a[0] == b[0]
  {
    var i :| 0 <= i < |b| && b[i] == a[0];
    var j :| 0 <= j < |a| && a[j] == b[0];
    if i > 0 && j > 0 { BeforeIsStrict(s, a[0], b[0]); }
  }

  /** Nothing occurs twice in a sorted list. */
  lemma TailElements(s: State, a: seq<Name>)
    requires Known(s, a) && Sorted(s, a) && a != []
    ensures forall x :: x in a[1..] <==> x in a && x != a[0]
  {
    forall x | x in a[1..] ensures x != a[0] {
      var i :| 0 <= i < |a[1..]| && a[1..][i] == x;
      BeforeIsStrict(s, a[0], a[i + 1]);
    }
    forall x | x in a && x != a[0] ensures x in a[1..] {
      var i :| 0 <= i < |a| && a[i] == x;
      assert a[1..][i - 1] == x;
    }
  }

  // ---------------------------------------------------------------- the list

  predicate Wanted(s: State, x: Name, role: Option<Role>) {
    x in s.members && (role.Some? ==> NodeOf(s, x).role == role.value)
  }

  /** An answer of the API server: the nodes asked for, each once, in any order. */
  predicate Answer(s: State, items: seq<Name>, role: Option<Role>) {
    && (forall x :: x in s.members && Wanted(s, x, role) ==> x in items)
    && (forall i :: 0 <= i < |items| ==> Wanted(s, items[i], role))
    && (forall i, j :: 0 <= i < j < |items| ==> items[i] != items[j])
  }

  /** The provisioned nodes among those asked for, sorted. */
  predicate EligibleList(s: State, list: seq<Name>, role: Option<Role>) {
    && Known(s, list) && Sorted(s, list)
    && (forall x :: x in list ==> Wanted(s, x, role) && Eligible(NodeOf(s, x)))
    && (forall x :: x in s.members && Wanted(s, x, role) && Eligible(NodeOf(s, x)) ==> x in list)
  }

  /** Where `x` belongs: behind everything that is not after it. */
  method Position(s: State, list: seq<Name>, x: Name) returns (k: nat)
    requires Known(s, list) && x in s.members
    ensures k <= |list|
    ensures forall i :: 0 <= i < k ==> !Before(s, x, list[i])
    ensures k < |list| ==> Before(s, x, list[k])
  {
    k := 0;
    while k < |list| && !Before(s, x, list[k])
      invariant k <= |list|
      invariant forall i :: 0 <= i < k ==> !Before(s, x, list[i])
    {
      k := k + 1;
    }
  }

  lemma InsertedIsSorted(s: State, list: seq<Name>, x: Name, k: nat)
    requires Known(s, list) && Sorted(s, list) && x in s.members && x !in list && k <= |list|
    requires forall i :: 0 <= i < k ==> !Before(s, x, list[i])
    requires k < |list| ==> Before(s, x, list[k])
    ensures Known(s, list[..k] + [x] + list[k..]) && Sorted(s, list[..k] + [x] + list[k..])
  {
    forall i | 0 <= i < k ensures Before(s, list[i], x) { BeforeIsTotal(s, list[i], x); }
    forall j | k < j < |list| ensures Before(s, x, list[j]) { BeforeIsTransitive(s, x, list[k], list[j]); }
  }

  /** Whatever the order of the answer, the result is the one sorted list of the provisioned nodes. */
  method ListEligible(s: State, items: seq<Name>, role: Option<Role>) returns (list: seq<Name>)
    requires Answer(s, items, role)
    ensures EligibleList(s, list, role)
  {
    var eligible: seq<Name> := [];
    for i := 0 to |items|
      invariant forall x :: x in eligible <==> x in items[..i] && Wanted(s, x, role) && Eligible(NodeOf(s, x))
      invariant forall j, k :: 0 <= j < k < |eligible| ==> eligible[j] != eligible[k]
    {
      assert items[..i + 1] == items[..i] + [items[i]];
      assert items[i] !in eligible;
      if Eligible(NodeOf(s, items[i])) { eligible := eligible + [items[i]]; }
    }
    assert items[..|items|] == items;
    assert forall i :: 0 <= i < |eligible| ==> eligible[i] in eligible;
    list := SortNodes(s, eligible);
  }

  method SortNodes(s: State, names: seq<Name>) returns (list: seq<Name>)
    requires Known(s, names) && forall j, k :: 0 <= j < k < |names| ==> names[j] != names[k]
    ensures Known(s, list) && Sorted(s, list)
    ensures forall x :: x in list <==> x in names
  {
    list := [];
    for i := 0 to |names|
      invariant Known(s, list) && Sorted(s, list)
      invariant forall x :: x in list <==> x in names[..i]
    {
      assert names[..i + 1] == names[..i] + [names[i]];
      assert names[i] !in list;
      var k := Position(s, list, names[i]);
      InsertedIsSorted(s, list, names[i], k);
      InsertedElements(list, names[i], k);
      list := list[..k] + [names[i]] + list[k..];
    }
    assert names[..|names|] == names;
  }

  lemma InsertedElements(list: seq<Name>, x: Name, k: nat)
    requires k <= |list|
    ensures forall y :: y in list[..k] + [x] + list[k..] <==> y in list || y == x
  {
    assert list == list[..k] + list[k..];
  }

  /** Two answers of any order give the same list. */
  lemma EligibleListIsUnique(s: State, a: seq<Name>, b: seq<Name>, role: Option<Role>)
    requires EligibleList(s, a, role) && EligibleList(s, b, role)
    ensures a == b
  {
    SortedIsUnique(s, a, b);
  }

  /** For one role the list is the one the plans are made from. */
  lemma RoleListIsPlanList(s: State, list: seq<Name>, role: Role)
    ensures EligibleList(s, list, Some(role)) <==> Lists(list, s, role)
  {
    if EligibleList(s, list, Some(role)) {
      forall i, j | 0 <= i < j < |list| ensures Less(list[i], list[j]) {
        assert Before(s, list[i], list[j]) && list[i] in list && list[j] in list;
      }
    }
    if Lists(list, s, role) {
      assert forall i :: 0 <= i < |list| ==> list[i] in list && NodeOf(s, list[i]).role == role;
    }
  }

  /** The list of all nodes is the list of control planes followed by the list of workers. */
  lemma AllNodesSplit(s: State, all: seq<Name>, cps: seq<Name>, ws: seq<Name>)
    requires EligibleList(s, all, None) && Lists(cps, s, Controlplane) && Lists(ws, s, Worker)
    ensures all == cps + ws
  {
    var both := cps + ws;
    assert Known(s, both) by { assert forall i :: 0 <= i < |both| ==> both[i] in cps || both[i] in ws; }
    forall i, j | 0 <= i < j < |both| ensures Before(s, both[i], both[j]) {
      assert if i < |cps| then both[i] == cps[i] && cps[i] in cps else both[i] == ws[i - |cps|] && ws[i - |cps|] in ws;
      assert if j < |cps| then both[j] == cps[j] && cps[j] in cps else both[j] == ws[j - |cps|] && ws[j - |cps|] in ws;
    }
    forall x ensures x in all <==> x in both {
      if x in all { assert Wanted(s, x, None); }
      if x in cps { assert Wanted(s, x, None); }
      if x in ws { assert Wanted(s, x, None); }
    }
    SortedIsUnique(s, all, both);
  }

  /** So planning is a function of the state: nothing is left to the order of an API answer. */
  lemma PlanningIsDetermined(s: State, a: Action, t: State, b: Action, u: State)
    requires a.Plan? && b.Plan? && Step(s, a, t) && Step(s, b, u)
    ensures a == b && t == u
  {
    RoleListIsPlanList(s, a.cps, Controlplane);
    RoleListIsPlanList(s, b.cps, Controlplane);
    RoleListIsPlanList(s, a.ws, Worker);
    RoleListIsPlanList(s, b.ws, Worker);
    hide EligibleList, Refused, Slots;
    EligibleListIsUnique(s, a.cps, b.cps, Some(Controlplane));
    EligibleListIsUnique(s, a.ws, b.ws, Some(Worker));
  }
}
