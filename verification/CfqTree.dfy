/** The service tree of the completely fair scheduler: a search tree of queues with its leftmost node
    cached. */
module CfqTree {

  datatype Tree = Leaf | Node(left: Tree, id: nat, right: Tree)

  function InOrder(t: Tree): seq<nat> {
    if t.Leaf? then [] else InOrder(t.left) + [t.id] + InOrder(t.right)
  }

  /** rb_first */
  function First(t: Tree): nat
    requires t.Node?
  {
    if t.left.Leaf? then t.id else First(t.left)
  }

  lemma FirstInOrder(t: Tree)
    requires t.Node?
    ensures InOrder(t) != [] && InOrder(t)[0] == First(t)
  {}

  /** A way down the tree, left or right at each node, to an empty place. */
  predicate Leads(t: Tree, path: seq<bool>)
    decreases t
  {
    if t.Leaf? then path == []
    else path != [] && Leads(if path[0] then t.left else t.right, path[1..])
  }

  /** rb_link_node at the end of the way. */
  function Attach(t: Tree, path: seq<bool>, id: nat): Tree
    requires Leads(t, path)
    decreases t
  {
    if t.Leaf? then Node(Leaf, id, Leaf)
    else if path[0] then t.(left := Attach(t.left, path[1..], id))
    else t.(right := Attach(t.right, path[1..], id))
  }

  /** How many nodes come before the place. */
  function Rank(t: Tree, path: seq<bool>): (k: nat)
    requires Leads(t, path)
    ensures k <= |InOrder(t)|
    decreases t
  {
    if t.Leaf? then 0
    else if path[0] then Rank(t.left, path[1..])
    else |InOrder(t.left)| + 1 + Rank(t.right, path[1..])
  }

  lemma {:induction false} AttachOrder(t: Tree, path: seq<bool>, id: nat)
    requires Leads(t, path)
    ensures var k := Rank(t, path); var o := InOrder(t);
      InOrder(Attach(t, path, id)) == o[..k] + [id] + o[k..]
    decreases t
  {
    if t.Node? {
      var l, r := InOrder(t.left), InOrder(t.right);
      if path[0] {
        AttachOrder(t.left, path[1..], id);
        var k := Rank(t.left, path[1..]);
        assert l[..k] + [id] + l[k..] + [t.id] + r == (l + [t.id] + r)[..k] + [id] + (l + [t.id] + r)[k..];
      } else {
        AttachOrder(t.right, path[1..], id);
        var k := Rank(t.right, path[1..]);
        var m := |l| + 1 + k;
        assert (l + [t.id] + r)[..m] == l + [t.id] + r[..k];
        assert (l + [t.id] + r)[m..] == r[k..];
      }
    }
  }

  /** The new node comes first exactly if the way never turned right. */
  lemma {:induction false} RankZero(t: Tree, path: seq<bool>)
    requires Leads(t, path)
    ensures Rank(t, path) == 0 <==> AllLeft(path)
    decreases t
  {
    if t.Node? {
      RankZero(if path[0] then t.left else t.right, path[1..]);
    }
  }

  predicate AllLeft(path: seq<bool>) {
    path == [] || (path[0] && AllLeft(path[1..]))
  }

  lemma {:induction false} AllLeftSnoc(path: seq<bool>, left: bool)
    ensures AllLeft(path + [left]) <==> AllLeft(path) && left
  {
    if path == [] {
      assert (path + [left])[1..] == [];
    } else {
      AllLeftSnoc(path[1..], left);
      assert (path + [left])[1..] == path[1..] + [left];
    }
  }

  /** Removing a node, its subtrees joined. */
  function Joined(l: Tree, r: Tree): Tree {
    if l.Leaf? then r else l.(right := Joined(l.right, r))
  }

  function Erase(t: Tree, id: nat): Tree {
    if t.Leaf? then Leaf
    else if t.id == id then Joined(t.left, t.right)
    else Node(Erase(t.left, id), t.id, Erase(t.right, id))
  }

  lemma {:induction false} JoinedOrder(l: Tree, r: Tree)
    ensures InOrder(Joined(l, r)) == InOrder(l) + InOrder(r)
  {
    if l.Node? {
      JoinedOrder(l.right, r);
    }
  }

  ghost predicate Distinct(s: seq<nat>) {
    forall i, j :: 0 <= i < j < |s| ==> s[i] != s[j]
  }

  /** A sequence without one of its elements. */
  function Without(s: seq<nat>, x: nat): seq<nat> {
    if s == [] then [] else if s[0] == x then s[1..] else [s[0]] + Without(s[1..], x)
  }

  lemma {:induction false} WithoutConcat(a: seq<nat>, b: seq<nat>, x: nat)
    ensures Without(a + b, x) == if x in a then Without(a, x) + b else a + Without(b, x)
  {
    if a == [] {
      assert a + b == b;
    } else {
      var rest := a[1..];
      assert (a + b)[1..] == rest + b && a == [a[0]] + rest;
      WithoutConcat(rest, b, x);
      if a[0] != x {
        assert [a[0]] + (Without(rest, x) + b) == [a[0]] + Without(rest, x) + b;
        assert [a[0]] + (rest + Without(b, x)) == a + Without(b, x);
      }
    }
  }

  lemma {:induction false} WithoutAbsent(s: seq<nat>, x: nat)
    requires x !in s
    ensures Without(s, x) == s
  {
    if s != [] {
      WithoutAbsent(s[1..], x);
    }
  }

  lemma {:induction false} EraseOrder(t: Tree, id: nat)
    requires Distinct(InOrder(t))
    ensures InOrder(Erase(t, id)) == Without(InOrder(t), id)
  {
    hide Without, Distinct;
    WithoutAbsent([], id);
    if t.Node? {
      var l, r := InOrder(t.left), InOrder(t.right);
      Parts(l, t.id, r);
      WithoutMiddle(l, t.id, r, id);
      if t.id == id {
        JoinedOrder(t.left, t.right);
      } else {
        EraseOrder(t.left, id);
        EraseOrder(t.right, id);
      }
    }
  }

  lemma WithoutMiddle(l: seq<nat>, x: nat, r: seq<nat>, id: nat)
    requires x !in l && x !in r && forall y :: y in l ==> y !in r
    ensures Without(l + [x] + r, id) == if id == x then l + r else Without(l, id) + [x] + Without(r, id)
  {
    hide Without;
    WithoutConcat(l + [x], r, id);
    WithoutConcat(l, [x], id);
    WithoutOne(x, id);
    if id !in l {
      WithoutAbsent(l, id);
    }
    if id !in r {
      WithoutAbsent(r, id);
    }
  }

  lemma WithoutOne(x: nat, id: nat)
    ensures Without([x], id) == if x == id then [] else [x]
  {}

  lemma Parts(l: seq<nat>, x: nat, r: seq<nat>)
    requires Distinct(l + [x] + r)
    ensures Distinct(l) && Distinct(r) && x !in l && x !in r && forall y :: y in l ==> y !in r
  {
    var s := l + [x] + r;
    assert forall i :: 0 <= i < |l| ==> l[i] == s[i];
    assert s[|l|] == x;
    assert forall i :: 0 <= i < |r| ==> r[i] == s[|l| + 1 + i];
  }

  lemma {:induction false} WithoutKeeps(s: seq<nat>, x: nat)
    requires Distinct(s)
    ensures Distinct(Without(s, x)) && |Without(s, x)| == if x in s then |s| - 1 else |s|
    ensures forall y :: y in Without(s, x) <==> y in s && y != x
    ensures s != [] && s[0] != x ==> Without(s, x) != [] && Without(s, x)[0] == s[0]
  {
    if s != [] {
      assert forall i :: 0 <= i < |s| - 1 ==> s[1..][i] == s[i + 1];
      WithoutKeeps(s[1..], x);
      assert s == [s[0]] + s[1..];
      var w := Without(s[1..], x);
      assert s[0] !in s[1..];
      assert forall i :: 1 <= i < |[s[0]] + w| ==> ([s[0]] + w)[i] == w[i - 1] && w[i - 1] in w;
    }
  }

  // The order of service

  /** What a queue is sorted by: class first, then the time of its next service. */
  datatype Place = Place(realtime: bool, idle: bool, key: int)

  /** Real-time queues come first and idle queues last. */
  predicate Precedes(a: Place, b: Place) {
    if a.realtime != b.realtime then a.realtime
    else if a.idle != b.idle then b.idle
    else a.key < b.key
  }

  ghost predicate Sorted(rank: map<nat, Place>, s: seq<nat>) {
    && (forall x :: x in s ==> x in rank)
    && forall i, j :: 0 <= i < j < |s| ==> !Precedes(rank[s[j]], rank[s[i]])
  }

  /** The way that the search for a new queue takes. */
  predicate Follows(rank: map<nat, Place>, new_: Place, t: Tree, path: seq<bool>)
    requires Leads(t, path) && forall x :: x in InOrder(t) ==> x in rank
    decreases t
  {
    t.Leaf? || (
      assert t.id in InOrder(t);
      path[0] == Precedes(new_, rank[t.id])
      && Follows(rank, new_, if path[0] then t.left else t.right, path[1..]))
  }

  lemma SortedParts(rank: map<nat, Place>, l: seq<nat>, x: nat, r: seq<nat>)
    requires Sorted(rank, l + [x] + r)
    ensures Sorted(rank, l) && Sorted(rank, r) && x in rank
    ensures forall y :: y in l ==> y in rank && !Precedes(rank[x], rank[y])
    ensures forall y :: y in r ==> y in rank && !Precedes(rank[y], rank[x])
  {
    var s := l + [x] + r;
    assert forall y :: y in l || y == x || y in r ==> y in s;
    assert s[|l|] == x;
    assert forall i :: 0 <= i < |l| ==> l[i] == s[i];
    assert forall i :: 0 <= i < |r| ==> r[i] == s[|l| + 1 + i];
  }

  /** Does the new queue go behind the first `k` of these, and before the others? */
  ghost predicate Splits(rank: map<nat, Place>, p: Place, o: seq<nat>, k: nat) {
    && (forall x :: x in o ==> x in rank)
    && (forall i :: 0 <= i < |o| ==> if i < k then !Precedes(p, rank[o[i]]) else Precedes(p, rank[o[i]]))
  }

  lemma SplitsLeft(rank: map<nat, Place>, p: Place, l: seq<nat>, x: nat, r: seq<nat>, k: nat)
    requires Sorted(rank, l + [x] + r) && Splits(rank, p, l, k) && k <= |l| && x in rank && Precedes(p, rank[x])
    ensures Splits(rank, p, l + [x] + r, k)
  {
    SortedParts(rank, l, x, r);
    var o := l + [x] + r;
    forall i | 0 <= i < |o|
      ensures if i < k then !Precedes(p, rank[o[i]]) else Precedes(p, rank[o[i]])
    {
      if i > |l| {
        assert o[i] == r[i - |l| - 1] && o[i] in r;
      }
    }
  }

  lemma SplitsRight(rank: map<nat, Place>, p: Place, l: seq<nat>, x: nat, r: seq<nat>, k: nat)
    requires Sorted(rank, l + [x] + r) && Splits(rank, p, r, k) && x in rank && !Precedes(p, rank[x])
    ensures Splits(rank, p, l + [x] + r, |l| + 1 + k)
  {
    SortedParts(rank, l, x, r);
    var o := l + [x] + r;
    forall i | 0 <= i < |o|
      ensures if i < |l| + 1 + k then !Precedes(p, rank[o[i]]) else Precedes(p, rank[o[i]])
    {
      if i > |l| {
        assert o[i] == r[i - |l| - 1];
      } else if i < |l| {
        assert o[i] == l[i] && o[i] in l;
      }
    }
  }

  /** The search splits a sorted tree. */
  lemma {:induction false} SearchSplits(rank: map<nat, Place>, p: Place, t: Tree, path: seq<bool>)
    requires Leads(t, path) && Sorted(rank, InOrder(t)) && Follows(rank, p, t, path)
    ensures Splits(rank, p, InOrder(t), Rank(t, path))
    decreases t
  {
    hide Splits, Sorted;
    if t.Node? {
      var l, r := InOrder(t.left), InOrder(t.right);
      SortedParts(rank, l, t.id, r);
      SearchSplits(rank, p, if path[0] then t.left else t.right, path[1..]);
      if path[0] {
        SplitsLeft(rank, p, l, t.id, r, Rank(t.left, path[1..]));
      } else {
        SplitsRight(rank, p, l, t.id, r, Rank(t.right, path[1..]));
      }
    } else {
      NoneToSplit(rank, p, 0);
    }
  }

  lemma NoneToSplit(rank: map<nat, Place>, p: Place, k: nat)
    ensures Splits(rank, p, [], k)
  {}

  /** Putting a queue where the search ends keeps the order of service. */
  lemma AttachSorted(rank: map<nat, Place>, p: Place, t: Tree, path: seq<bool>, id: nat)
    requires Leads(t, path) && Sorted(rank, InOrder(t)) && Follows(rank, p, t, path) && id !in InOrder(t)
    ensures Sorted(rank[id := p], InOrder(Attach(t, path, id)))
  {
    hide Follows;
    SearchSplits(rank, p, t, path);
    AttachOrder(t, path, id);
    var k, o := Rank(t, path), InOrder(t);
    var s := o[..k] + [id] + o[k..];
    var rank' := rank[id := p];
    forall i | 0 <= i < |s| && i != k
      ensures s[i] == o[if i < k then i else i - 1] && s[i] in o
    {}
    forall i, j | 0 <= i < j < |s|
      ensures !Precedes(rank'[s[j]], rank'[s[i]])
    {}
  }

  lemma WithoutSorted(rank: map<nat, Place>, s: seq<nat>, x: nat)
    requires Sorted(rank, s) && Distinct(s)
    ensures Sorted(rank, Without(s, x))
    decreases |s|
  {
    if s != [] {
      var rest := s[1..];
      assert forall i :: 0 <= i < |rest| ==> rest[i] == s[i + 1];
      WithoutSorted(rank, rest, x);
      WithoutKeeps(rest, x);
      var w := Without(rest, x);
      assert forall y :: y in rest ==> !Precedes(rank[y], rank[s[0]]);
      assert forall i :: 0 <= i < |w| ==> w[i] in rest;
      ConsSorted(rank, s[0], w);
    }
  }

  /** The queue `id` may have the place `p` where it is. */
  ghost predicate Agrees(rank: map<nat, Place>, o: seq<nat>, id: nat, p: Place)
    requires forall x :: x in o ==> x in rank
  {
    forall i :: 0 <= i < |o| && o[i] == id ==>
      (i > 0 ==> !Precedes(p, rank[o[i - 1]])) && (i + 1 < |o| ==> !Precedes(rank[o[i + 1]], p))
  }

  /** A queue that changes its place without moving keeps the order exactly if its neighbours agree. */
  lemma ChangedSortedIff(rank: map<nat, Place>, o: seq<nat>, id: nat, p: Place)
    requires Sorted(rank, o) && Distinct(o)
    ensures Sorted(rank[id := p], o) <==> Agrees(rank, o, id, p)
  {
    var rank' := rank[id := p];
    if Agrees(rank, o, id, p) {
      forall i, j | 0 <= i < j < |o|
        ensures !Precedes(rank'[o[j]], rank'[o[i]])
      {
        assert o[i] == id && i + 1 < j ==> !Precedes(rank[o[j]], rank[o[i + 1]]);
        assert o[j] == id && i < j - 1 ==> !Precedes(rank[o[j - 1]], rank[o[i]]);
      }
    } else {
      var i :| 0 <= i < |o| && o[i] == id
        && ((i > 0 && Precedes(p, rank[o[i - 1]])) || (i + 1 < |o| && Precedes(rank[o[i + 1]], p)));
      assert i > 0 ==> rank'[o[i - 1]] == rank[o[i - 1]];
      assert i + 1 < |o| ==> rank'[o[i + 1]] == rank[o[i + 1]];
      assert rank'[o[i]] == p;
    }
  }

  /** The change can break it: a queue at the back that becomes a real-time queue. */
  lemma ClassCanBreakOrder()
    ensures var rank := map[1 := Place(false, false, 5), 2 := Place(false, false, 7)];
      Sorted(rank, [1, 2]) && !Sorted(rank[2 := Place(true, false, 7)], [1, 2])
  {
    var rank := map[1 := Place(false, false, 5), 2 := Place(false, false, 7)];
    assert Precedes(Place(true, false, 7), rank[1]);
    assert [1, 2][0] == 1 && [1, 2][1] == 2;
  }

  lemma ConsSorted(rank: map<nat, Place>, y: nat, w: seq<nat>)
    requires Sorted(rank, w) && y in rank && forall i :: 0 <= i < |w| ==> !Precedes(rank[w[i]], rank[y])
    ensures Sorted(rank, [y] + w)
  {
    var s := [y] + w;
    assert forall i :: 1 <= i < |s| ==> s[i] == w[i - 1];
  }

  /** The search has gone down `path` and stands at `cur`. */
  ghost predicate Going(rank: map<nat, Place>, p: Place, t: Tree, path: seq<bool>, cur: Tree)
    decreases t
  {
    if path == [] then t == cur
    else (
      && t.Node? && t.id in rank && path[0] == Precedes(p, rank[t.id])
      && Going(rank, p, if path[0] then t.left else t.right, path[1..], cur))
  }

  lemma {:induction false} GoingStep(rank: map<nat, Place>, p: Place, t: Tree, path: seq<bool>, cur: Tree)
    requires Going(rank, p, t, path, cur) && cur.Node? && cur.id in rank
    ensures var left := Precedes(p, rank[cur.id]);
      Going(rank, p, t, path + [left], if left then cur.left else cur.right)
    decreases t
  {
    var left := Precedes(p, rank[cur.id]);
    if path == [] {
      assert (path + [left])[1..] == [];
    } else {
      GoingStep(rank, p, if path[0] then t.left else t.right, path[1..], cur);
      assert (path + [left])[1..] == path[1..] + [left];
    }
  }

  lemma {:induction false} GoingInside(rank: map<nat, Place>, p: Place, t: Tree, path: seq<bool>, cur: Tree)
    requires Going(rank, p, t, path, cur)
    ensures forall x :: x in InOrder(cur) ==> x in InOrder(t)
    decreases t
  {
    if path != [] {
      GoingInside(rank, p, if path[0] then t.left else t.right, path[1..], cur);
    }
  }

  lemma {:induction false} GoingEnds(rank: map<nat, Place>, p: Place, t: Tree, path: seq<bool>)
    requires Going(rank, p, t, path, Leaf) && forall x :: x in InOrder(t) ==> x in rank
    ensures Leads(t, path) && Follows(rank, p, t, path)
    decreases t
  {
    if t.Node? {
      GoingEnds(rank, p, if path[0] then t.left else t.right, path[1..]);
    }
  }
}
