/** The completely fair scheduler's queues: forced dispatch empties them all, and the cached leftmost
    queue of the service tree is always the true one. */
module CfqSched {
  import opened Options
  import opened CfqTree

  /** A request and the queue it belongs to. */
  datatype Rq = Rq(id: nat, cfqq: nat, pos: nat, sync: bool, meta: bool)

  /** A queue of requests: sorted by sector, the one to serve next, and whether it is in the service
      tree. */
  datatype Cfqq = Cfqq(sort: seq<Rq>, next: Option<Rq>, onRr: bool)

  datatype Tunables = Tunables(backMax: nat, backPenalty: nat)

  // cfq_choose_req

  predicate Wrapped(s: nat, last: nat, t: Tunables) { s + t.backMax * 2 < last }

  function Distance(s: nat, last: nat, t: Tunables): nat {
    if s >= last then s - last else (last - s) * t.backPenalty
  }

  predicate FirstWins(a: Rq, b: Rq, last: nat, t: Tunables) {
    if a.sync != b.sync then a.sync
    else if a.meta != b.meta then a.meta
    else
      var w1, w2 := Wrapped(a.pos, last, t), Wrapped(b.pos, last, t);
      if w1 != w2 then w2
      else if w1 then a.pos <= b.pos
      else
        var d1, d2 := Distance(a.pos, last, t), Distance(b.pos, last, t);
        if d1 != d2 then d1 < d2 else a.pos >= b.pos
  }

  /** Synchronous requests before others, metadata before data, then the elevator: of two requests
      at different sectors exactly one wins, and winning carries over. */
  lemma ChoiceIsAnOrder(a: Rq, b: Rq, c: Rq, last: nat, t: Tunables)
    requires a.pos != b.pos && b.pos != c.pos && a.pos != c.pos
    ensures FirstWins(a, b, last, t) <==> !FirstWins(b, a, last, t)
    ensures FirstWins(a, b, last, t) && FirstWins(b, c, last, t) ==> FirstWins(a, c, last, t)
  {
    hide Distance, Wrapped;
  }

  /** What it decides: a synchronous request before another, then metadata before data.  Otherwise, for `a` at the
      lower sector: ahead of the head the nearer one; behind it the nearer one, unless both are more than twice
      back_seek_max back, when the lower one is first; and one behind wins over one ahead if it is at most that far
      back and nearer by the penalty. */
  lemma ChoiceMeans(a: Rq, b: Rq, last: nat, t: Tunables)
    requires a.pos < b.pos
    ensures a.sync != b.sync ==> (FirstWins(a, b, last, t) <==> a.sync)
    ensures a.sync == b.sync && a.meta != b.meta ==> (FirstWins(a, b, last, t) <==> a.meta)
    ensures a.sync == b.sync && a.meta == b.meta && last <= a.pos ==> FirstWins(a, b, last, t)
    ensures a.sync == b.sync && a.meta == b.meta && a.pos < last <= b.pos ==>
      (FirstWins(a, b, last, t) <==> last - a.pos <= 2 * t.backMax && (last - a.pos) * t.backPenalty < b.pos - last)
    ensures a.sync == b.sync && a.meta == b.meta && b.pos < last ==>
      (FirstWins(a, b, last, t) <==> last - b.pos > 2 * t.backMax)
  {
    if b.pos < last {
      Farther(last - a.pos, last - b.pos, t.backPenalty);
    }
  }

  lemma Farther(m: nat, n: nat, k: nat)
    requires n <= m
    ensures n * k <= m * k
  {}

  function Choose(a: Option<Rq>, b: Option<Rq>, last: nat, t: Tunables): Option<Rq> {
    if a.None? || a == b then b
    else if b.None? then a
    else if FirstWins(a.value, b.value, last, t) then a else b
  }

  ghost predicate Increasing(q: seq<Rq>) {
    forall i, j :: 0 <= i < j < |q| ==> q[i].pos < q[j].pos
  }

  /** A queue is in the service tree while it has requests, and then one of them is next. */
  ghost predicate QueueOk(id: nat, q: Cfqq) {
    && Increasing(q.sort) && (forall r :: r in q.sort ==> r.cfqq == id)
    && (q.onRr <==> q.sort != [])
    && (if q.next.None? then q.sort == [] else q.next.value in q.sort)
  }

  /** The tree holds the queues marked as being in it. */
  ghost predicate OnTree(queues: map<nat, Cfqq>, o: seq<nat>) {
    forall id :: id in o <==> id in queues && queues[id].onRr
  }

  ghost predicate QueuesOk(queues: map<nat, Cfqq>, pending: set<Rq>) {
    && (forall id :: id in queues ==> QueueOk(id, queues[id]))
    && (forall r :: r in pending <==> r.cfqq in queues && r in queues[r.cfqq].sort)
  }

  class CfqData {
    const tunables: Tunables
    // what rb_insert_color and rb_erase do to the shape of a tree
    const rebalance: Tree -> Tree
    var tree: Tree
    var left: Option<nat>
    var place: map<nat, Place>
    var queues: map<nat, Cfqq>
    var busyQueues: nat
    var rqQueued: nat
    var lastPosition: nat
    // the requests moved to the dispatch queue so far
    var dispatched: seq<Rq>
    ghost var pending: set<Rq>

    /** The service tree: every queue in it has a place, and its leftmost node is cached or not. */
    ghost predicate TreeOk()
      reads this`tree, this`left, this`place
    {
      && (forall t :: InOrder(rebalance(t)) == InOrder(t))
      && Distinct(InOrder(tree)) && (forall x :: x in InOrder(tree) ==> x in place)
      && (left.Some? ==> tree.Node? && left.value == First(tree))
    }

    /** The queues are in the order of service. */
    ghost predicate Fair()
      reads this`tree, this`place
    {
      Sorted(place, InOrder(tree))
    }

    /** cfq_rb_first */
    method RbFirst() returns (first: Option<nat>)
      requires TreeOk()
      modifies this`left
      ensures TreeOk()
      ensures if tree.Leaf? then first == None else first == Some(First(tree)) == Some(InOrder(tree)[0])
    {
      if left.None? && tree.Node? {
        left := Some(First(tree));
      }
      if tree.Node? {
        FirstInOrder(tree);
      }
      return left;
    }

    /** cfq_rb_erase */
    method RbErase(id: nat)
      requires TreeOk()
      modifies this`tree, this`left
      ensures TreeOk() && InOrder(tree) == Without(old(InOrder(tree)), id)
      ensures old(Fair()) ==> Fair()
    {
      if left == Some(id) {
        left := None;
      }
      ghost var o := InOrder(tree);
      EraseOrder(tree, id);
      WithoutKeeps(o, id);
      if Fair() {
        WithoutSorted(place, o, id);
      }
      if tree.Node? {
        FirstInOrder(tree);
      }
      tree := rebalance(Erase(tree, id));
      if tree.Node? {
        FirstInOrder(tree);
      }
    }

    /** The search and the insertion of cfq_service_tree_add: the new node is cached as leftmost if
        the search only went left. */
    method RbInsert(id: nat, p: Place)
      requires TreeOk() && id !in InOrder(tree)
      modifies this`tree, this`left, this`place
      ensures TreeOk()
      ensures place == old(place)[id := p]
      ensures exists k ::
        && 0 <= k <= |old(InOrder(tree))| && InOrder(tree) == Spliced(old(InOrder(tree)), k, id)
        && (old(Fair()) ==> Splits(old(place), p, old(InOrder(tree)), k))
      ensures old(Fair()) ==> Fair()
    {
      hide Going, AllLeft, Follows, Leads, Sorted, Splits;
      var path, cur, leftmost := [], tree, true;
      GoingStarts(place, p, tree);
      while cur.Node?
        invariant Going(place, p, tree, path, cur)
        invariant leftmost == AllLeft(path)
        modifies {}
        decreases cur
      {
        GoingInside(place, p, tree, path, cur);
        assert cur.id in InOrder(cur);
        GoingStep(place, p, tree, path, cur);
        var goLeft := Precedes(p, place[cur.id]);
        if !goLeft {
          leftmost := false;
        }
        AllLeftSnoc(path, goLeft);
        path := path + [goLeft];
        cur := if goLeft then cur.left else cur.right;
      }
      GoingEnds(place, p, tree, path);
      Attached(tree, path, id, rebalance);
      if Fair() {
        SearchSplits(place, p, tree, path);
        AttachOrder(tree, path, id);
        AttachSorted(place, p, tree, path, id);
      }
      if leftmost {
        left := Some(id);
      }
      tree := rebalance(Attach(tree, path, id));
      place := place[id := p];
    }

    ghost predicate Valid()
      reads this
    {
      && TreeOk() && busyQueues == |InOrder(tree)|
      && OnTree(queues, InOrder(tree)) && QueuesOk(queues, pending) && rqQueued == |pending|
    }

    constructor (tunables: Tunables, rebalance: Tree -> Tree)
      requires forall t :: InOrder(rebalance(t)) == InOrder(t)
      ensures Valid() && Fair() && pending == {} && dispatched == [] && this.tunables == tunables
    {
      this.tunables, this.rebalance := tunables, rebalance;
      tree, left, place, queues := Leaf, None, map[], map[];
      busyQueues, rqQueued, lastPosition, dispatched, pending := 0, 0, 0, [], {};
    }

    /** cfq_choose_req */
    method ChooseReq(a: Option<Rq>, b: Option<Rq>) returns (o: Option<Rq>)
      ensures o == Choose(a, b, lastPosition, tunables)
    {
      if a.None? || a == b {
        return b;
      }
      if b.None? {
        return a;
      }
      var r1, r2 := a.value, b.value;
      if r1.sync && !r2.sync {
        return a;
      } else if r2.sync && !r1.sync {
        return b;
      }
      if r1.meta && !r2.meta {
        return a;
      } else if r2.meta && !r1.meta {
        return b;
      }
      var last, backMax := lastPosition, tunables.backMax * 2;
      var d1, d2, wrap1, wrap2 := 0, 0, false, false;
      if r1.pos >= last {
        d1 := r1.pos - last;
      } else if r1.pos + backMax >= last {
        d1 := (last - r1.pos) * tunables.backPenalty;
      } else {
        wrap1 := true;
      }
      if r2.pos >= last {
        d2 := r2.pos - last;
      } else if r2.pos + backMax >= last {
        d2 := (last - r2.pos) * tunables.backPenalty;
      } else {
        wrap2 := true;
      }
      if !wrap1 && !wrap2 {
        if d1 < d2 {
          return a;
        } else if d2 < d1 {
          return b;
        }
        return if r1.pos >= r2.pos then a else b;
      } else if wrap1 != wrap2 {
        return if wrap2 then a else b;
      }
      return if r1.pos <= r2.pos then a else b;
    }

    /** cfq_find_next_rq: one of the neighbours, if there is one. */
    method FindNext(sort: seq<Rq>, i: nat) returns (o: Option<Rq>)
      requires i < |sort| && Increasing(sort)
      ensures if |sort| == 1 then o == None else o.Some? && o.value in sort && o.value != sort[i]
      ensures Succeeds(sort, sort[i], o, lastPosition, tunables)
    {
      hide FirstWins;
      var after, before: Option<Rq> := None, None;
      if i > 0 {
        before := Some(sort[i - 1]);
      }
      if i + 1 < |sort| {
        after := Some(sort[i + 1]);
      } else if i != 0 {
        after := Some(sort[0]);
      }
      o := ChooseReq(after, before);
      NeighbourWins(sort, i, lastPosition, tunables);
      if |sort| > 1 {
        ghost var j := if o == after then (if i + 1 < |sort| then i + 1 else 0) else i - 1;
        assert NeighbourBest(sort, i, j, lastPosition, tunables);
      }
    }

    /** cfq_del_cfqq_rr */
    method DelRr(id: nat)
      requires TreeOk() && busyQueues == |InOrder(tree)| && id in InOrder(tree)
      modifies this`tree, this`left, this`busyQueues
      ensures TreeOk() && busyQueues == |InOrder(tree)| == old(busyQueues) - 1 && (old(Fair()) ==> Fair())
      ensures forall x :: x in InOrder(tree) <==> x in old(InOrder(tree)) && x != id
    {
      WithoutKeeps(InOrder(tree), id);
      RbErase(id);
      busyQueues := busyQueues - 1;
    }

    /** cfq_add_cfqq_rr */
    method AddRr(id: nat, p: Place)
      requires TreeOk() && busyQueues == |InOrder(tree)| && id !in InOrder(tree)
      modifies this`tree, this`left, this`place, this`busyQueues
      ensures TreeOk() && busyQueues == |InOrder(tree)| == old(busyQueues) + 1 && (old(Fair()) ==> Fair())
      ensures place == old(place)[id := p]
      ensures forall x :: x in InOrder(tree) <==> x in old(InOrder(tree)) || x == id
    {
      ghost var o := InOrder(tree);
      RbInsert(id, p);
      ghost var k :| 0 <= k <= |o| && InOrder(tree) == Spliced(o, k, id);
      SplicedMembers(o, k, id);
      busyQueues := busyQueues + 1;
    }

    /** cfq_init_prio_data and cfq_prio_boost change the class of a queue and leave it where it is: the
        order of service stands exactly if its neighbours agree. */
    method SetClass(id: nat, realtime: bool, idle: bool)
      requires Valid() && id in InOrder(tree)
      modifies this`place
      ensures Valid() && place == old(place)[id := Place(realtime, idle, old(place)[id].key)]
      ensures old(Fair()) ==> (Fair() <==> Agrees(old(place), InOrder(tree), id, place[id]))
    {
      hide QueuesOk, Sorted, Agrees;
      if Fair() {
        ChangedSortedIff(place, InOrder(tree), id, Place(realtime, idle, place[id].key));
      }
      place := place[id := Place(realtime, idle, place[id].key)];
    }

    /** A queue in the tree moves to another place. */
    method Move(id: nat, p: Place)
      requires TreeOk() && id in InOrder(tree)
      modifies this`tree, this`left, this`place
      ensures TreeOk() && place == old(place)[id := p] && Relocated(old(place), old(InOrder(tree)), id, p, InOrder(tree))
      ensures Sorted(old(place), Without(old(InOrder(tree)), id)) ==> Fair()
      ensures |InOrder(tree)| == |old(InOrder(tree))| && forall x :: x in InOrder(tree) <==> x in old(InOrder(tree))
    {
      hide Sorted, Distinct, Splits;
      ghost var o := InOrder(tree);
      WithoutKeeps(o, id);
      RbErase(id);
      RbInsert(id, p);
      ghost var k :| 0 <= k <= |Without(o, id)| && InOrder(tree) == Spliced(Without(o, id), k, id)
        && (Sorted(old(place), Without(o, id)) ==> Splits(old(place), p, Without(o, id), k));
      SplicedMembers(Without(o, id), k, id);
    }

    /** cfq_resort_rr_list: a queue in the tree gets a new key.  With the key it has it stays, even if its
        class has changed; with another one it moves, and is in order if the other queues are. */
    method Resort(id: nat, key: int)
      requires Valid()
      modifies this`tree, this`left, this`place
      ensures Valid()
      ensures id !in old(InOrder(tree)) || old(place)[id].key == key ==>
        InOrder(tree) == old(InOrder(tree)) && place == old(place)
      ensures id in old(InOrder(tree)) && old(place)[id].key != key ==>
        && place == old(place)[id := old(place)[id].(key := key)]
        && Relocated(old(place), old(InOrder(tree)), id, place[id], InOrder(tree))
        && (Sorted(old(place), Without(old(InOrder(tree)), id)) ==> Fair())
    {
      hide QueuesOk, Sorted, Distinct, Relocated, Without;
      if id in queues && queues[id].onRr {
        if place[id].key == key {
          return;
        }
        Move(id, place[id].(key := key));
      }
    }

    /** cfq_dispatch_insert and cfq_remove_request: a request leaves, and with its last one the queue
        leaves the service tree. */
    method Dispatch(r: Rq)
      requires Valid() && r in pending
      modifies this
      ensures Valid() && pending == old(pending) - {r} && dispatched == old(dispatched) + [r]
      ensures queues.Keys == old(queues).Keys && (old(Fair()) ==> Fair()) && r.cfqq in queues
      ensures Succeeds(old(queues)[r.cfqq].sort, r, queues[r.cfqq].next, lastPosition, tunables)
      ensures lastPosition == old(lastPosition) && forall x :: x in queues && x != r.cfqq ==> queues[x] == old(queues)[x]
    {
      hide TreeOk, Fair, QueuesOk, QueueOk, OnTree, Succeeds;
      var id := r.cfqq;
      Member(queues, pending, r);
      var q := queues[id];
      var i := Find(q.sort, r);
      QueueIncreases(id, q);
      var next := FindNext(q.sort, i);
      var sort := q.sort[..i] + q.sort[i + 1..];
      Dequeued(queues, pending, r, i, next);
      Emptied(queues, InOrder(tree), id, Cfqq(sort, next, sort != []));
      if sort == [] {
        DelRr(id);
      }
      Cleared(queues, old(InOrder(tree)), InOrder(tree), id, Cfqq(sort, next, sort != []));
      queues := queues[id := Cfqq(sort, next, sort != [])];
      rqQueued := rqQueued - 1;
      pending := pending - {r};
      dispatched := dispatched + [r];
    }

    static method Find(sort: seq<Rq>, r: Rq) returns (i: nat)
      requires r in sort
      ensures i < |sort| && sort[i] == r
    {
      i := 0;
      while sort[i] != r
        invariant i < |sort| && r !in sort[..i]
        decreases |sort| - i
      {
        i := i + 1;
      }
    }

    /** A request at the same sector of the queue is dispatched to make room. */
    method MakeRoom(id: nat, pos: nat) returns (ghost alias: set<Rq>)
      requires Valid() && id in queues
      modifies this
      ensures Valid() && id in queues && pending == old(pending) - alias && (old(Fair()) ==> Fair())
      ensures forall x :: x in alias ==> x in old(pending) && x.cfqq == id && x.pos == pos
      ensures Moved(old(dispatched), dispatched, old(pending), old(pending) - alias)
      ensures forall j :: 0 <= j < |queues[id].sort| ==> queues[id].sort[j].pos != pos
      ensures alias == {} ==> queues == old(queues)
      ensures forall x :: x in alias ==> Succeeds(old(queues)[id].sort, x, queues[id].next, lastPosition, tunables)
      ensures lastPosition == old(lastPosition)
    {
      hide TreeOk, Fair, QueuesOk, QueueOk, OnTree, Moved, Succeeds;
      alias := {};
      Ascending(queues, pending, id);
      var i := Spot(queues[id].sort, pos);
      MovedNone(dispatched, pending);
      assert pending - {} == pending;
      if i < |queues[id].sort| && queues[id].sort[i].pos == pos {
        var x := queues[id].sort[i];
        alias := {x};
        Holds(queues, pending, id, i);
        Dispatch(x);
        MovedOne(old(dispatched), dispatched, old(pending), x);
        NoAlias(old(queues), old(pending), queues, pending, x);
      } else {
        SpotFree(queues[id].sort, i, pos);
      }
    }

    /** The request joins its queue, and the queue the service tree if it was not in it. */
    method Enqueue(r: Rq, p: Place)
      requires Valid() && r !in pending && r.cfqq in queues
      requires forall j :: 0 <= j < |queues[r.cfqq].sort| ==> queues[r.cfqq].sort[j].pos != r.pos
      modifies this
      ensures Valid() && pending == old(pending) + {r} && dispatched == old(dispatched) && (old(Fair()) ==> Fair())
      ensures r.cfqq in queues && queues[r.cfqq].next == Preferred(old(queues)[r.cfqq].next, r, lastPosition, tunables)
      ensures lastPosition == old(lastPosition)
    {
      hide TreeOk, Fair, QueuesOk, QueueOk, OnTree;
      var id := r.cfqq;
      var q := queues[id];
      var i := Spot(q.sort, r.pos);
      var next := ChooseReq(q.next, Some(r));
      Enqueued(queues, pending, r, i, next);
      ghost var o := InOrder(tree);
      if !q.onRr {
        OffTree(queues, o, id);
        AddRr(id, p);
      }
      var added := Cfqq(q.sort[..i] + [r] + q.sort[i..], next, true);
      Marked(queues, o, InOrder(tree), id, added);
      queues := queues[id := added];
      rqQueued := rqQueued + 1;
      pending := pending + {r};
    }

    /** cfq_add_rq_rb */
    method AddRequest(r: Rq, p: Place) returns (ghost alias: set<Rq>, ghost before: Option<Rq>)
      requires Valid() && r !in pending
      modifies this
      ensures Valid() && pending == old(pending) - alias + {r} && (old(Fair()) ==> Fair())
      ensures forall x :: x in alias ==> x in old(pending) && x.cfqq == r.cfqq && x.pos == r.pos
      ensures Moved(old(dispatched), dispatched, old(pending), old(pending) - alias)
      ensures r.cfqq in queues && queues[r.cfqq].next == Preferred(before, r, lastPosition, tunables)
      ensures alias == {} ==> before == if r.cfqq in old(queues) then old(queues)[r.cfqq].next else None
      ensures forall x :: x in alias ==>
        r.cfqq in old(queues) && Succeeds(old(queues)[r.cfqq].sort, x, before, lastPosition, tunables)
    {
      hide TreeOk, Fair, QueuesOk, QueueOk, OnTree, Moved, Succeeds, Preferred, FirstWins;
      NewQueue(queues, pending, InOrder(tree), r.cfqq);
      if r.cfqq !in queues {
        NoneOf(queues, pending, r.cfqq);
        queues := queues[r.cfqq := Cfqq([], None, false)];
      }
      alias := MakeRoom(r.cfqq, r.pos);
      before := queues[r.cfqq].next;
      Enqueue(r, p);
    }

    static method Spot(sort: seq<Rq>, pos: nat) returns (i: nat)
      ensures i <= |sort| && (forall j :: 0 <= j < i ==> sort[j].pos < pos) && (i < |sort| ==> pos <= sort[i].pos)
    {
      i := 0;
      while i < |sort| && sort[i].pos < pos
        invariant i <= |sort| && forall j :: 0 <= j < i ==> sort[j].pos < pos
      {
        i := i + 1;
      }
    }

    /** __cfq_forced_dispatch_cfqq */
    method ForcedQueue(id: nat) returns (n: nat)
      requires Valid() && id in queues
      modifies this
      ensures Valid() && queues.Keys == old(queues).Keys && queues[id].sort == [] && !queues[id].onRr
      ensures Moved(old(dispatched), dispatched, old(pending), pending) && n == |dispatched| - |old(dispatched)|
      ensures old(Fair()) ==> Fair()
    {
      hide TreeOk, Fair, QueuesOk, QueueOk, OnTree, Moved;
      n := 0;
      MovedNone(dispatched, pending);
      NextQueued(queues, pending, id);
      while queues[id].next.Some?
        invariant Valid() && queues.Keys == old(queues).Keys && (old(Fair()) ==> Fair())
        invariant Moved(old(dispatched), dispatched, old(pending), pending) && n == |dispatched| - |old(dispatched)|
        invariant if queues[id].next.Some? then queues[id].next.value in pending
          else queues[id].sort == [] && !queues[id].onRr
        decreases |pending|
      {
        var r := queues[id].next.value;
        ghost var d, p := dispatched, pending;
        Dispatch(r);
        MovedOne(d, dispatched, p, r);
        MovedTrans(old(dispatched), d, dispatched, old(pending), p, pending);
        NextQueued(queues, pending, id);
        n := n + 1;
      }
    }

    /** cfq_forced_dispatch: every queued request goes, each once, and no queue stays busy. */
    method ForcedDispatch() returns (n: nat)
      requires Valid()
      modifies this
      ensures Valid() && pending == {} && busyQueues == 0 && tree.Leaf?
      ensures n == |old(pending)|
      ensures Moved(old(dispatched), dispatched, old(pending), {})
    {
      hide TreeOk, Fair, QueuesOk, QueueOk, OnTree, Moved;
      n := 0;
      MovedNone(dispatched, pending);
      assert Valid();
      var first := RbFirst();
      while first.Some?
        invariant Valid() && Moved(old(dispatched), dispatched, old(pending), pending)
        invariant n == |dispatched| - |old(dispatched)|
        invariant if tree.Leaf? then first == None else first == Some(InOrder(tree)[0])
        decreases |pending|
      {
        ghost var d, p := dispatched, pending;
        ghost var r := Busy(queues, pending, InOrder(tree), first.value);
        var m := ForcedQueue(first.value);
        MovedTrans(old(dispatched), d, dispatched, old(pending), p, pending);
        Fewer(d, dispatched, p, pending, queues, r);
        n := n + m;
        first := RbFirst();
      }
      AllIdle(queues, pending, InOrder(tree));
      MovedAll(old(dispatched), dispatched, old(pending));
    }
  }

  /** The requests that left were dispatched, each once. */
  ghost predicate Moved(d0: seq<Rq>, d1: seq<Rq>, p0: set<Rq>, p1: set<Rq>) {
    && d0 <= d1 && p1 <= p0 && |d1| - |d0| == |p0| - |p1|
    && (forall r :: r in d1[|d0|..] <==> r in p0 && r !in p1)
  }

  lemma MovedNone(d: seq<Rq>, p: set<Rq>)
    ensures Moved(d, d, p, p)
  {}

  lemma MovedOne(d0: seq<Rq>, d1: seq<Rq>, p: set<Rq>, r: Rq)
    requires r in p && d1 == d0 + [r]
    ensures Moved(d0, d1, p, p - {r})
  {}

  lemma MovedAll(d0: seq<Rq>, d1: seq<Rq>, p: set<Rq>)
    requires Moved(d0, d1, p, {})
    ensures |d1| - |d0| == |p|
  {}

  lemma MovedTrans(d0: seq<Rq>, d1: seq<Rq>, d2: seq<Rq>, p0: set<Rq>, p1: set<Rq>, p2: set<Rq>)
    requires Moved(d0, d1, p0, p1) && Moved(d1, d2, p1, p2)
    ensures Moved(d0, d2, p0, p2)
  {
    assert d2[|d0|..] == d1[|d0|..] + d2[|d1|..];
  }

  lemma NextQueued(queues: map<nat, Cfqq>, pending: set<Rq>, id: nat)
    requires QueuesOk(queues, pending) && id in queues
    ensures if queues[id].next.Some? then queues[id].next.value in pending
      else queues[id].sort == [] && !queues[id].onRr
  {
    hide Increasing;
    assert QueueOk(id, queues[id]);
  }

  /** A queue in the tree has a request. */
  lemma Busy(queues: map<nat, Cfqq>, pending: set<Rq>, o: seq<nat>, id: nat) returns (r: Rq)
    requires QueuesOk(queues, pending) && OnTree(queues, o) && o != [] && o[0] == id
    ensures id in queues && r in pending && r.cfqq == id
  {
    hide Increasing;
    assert id in o;
    assert QueueOk(id, queues[id]);
    r := queues[id].sort[0];
    assert r in queues[id].sort;
  }

  lemma Fewer(d0: seq<Rq>, d1: seq<Rq>, p0: set<Rq>, p1: set<Rq>, queues: map<nat, Cfqq>, r: Rq)
    requires Moved(d0, d1, p0, p1) && QueuesOk(queues, p1) && r in p0 && r.cfqq in queues && queues[r.cfqq].sort == []
    ensures |p1| < |p0|
  {
    hide QueueOk;
    assert r !in p1;
    assert r in d1[|d0|..];
  }

  lemma AllIdle(queues: map<nat, Cfqq>, pending: set<Rq>, o: seq<nat>)
    requires QueuesOk(queues, pending) && OnTree(queues, o) && o == []
    ensures pending == {}
  {
    hide Increasing;
    forall r: Rq
      ensures r !in pending
    {
      if r.cfqq in queues {
        assert QueueOk(r.cfqq, queues[r.cfqq]) && r.cfqq !in o;
      }
    }
  }

  /** The request to serve next when `r` arrives: the old one if it wins, and `r` if not. */
  ghost function Preferred(o: Option<Rq>, r: Rq, last: nat, t: Tunables): Option<Rq> {
    if o.Some? && o.value != r && FirstWins(o.value, r, last, t) then o else Some(r)
  }

  lemma NoneOf(queues: map<nat, Cfqq>, pending: set<Rq>, id: nat)
    requires QueuesOk(queues, pending) && id !in queues
    ensures forall x :: x in pending ==> x.cfqq != id
  {
    hide QueueOk;
  }

  lemma NewQueue(queues: map<nat, Cfqq>, pending: set<Rq>, o: seq<nat>, id: nat)
    requires QueuesOk(queues, pending) && OnTree(queues, o)
    ensures var qs := if id in queues then queues else queues[id := Cfqq([], None, false)];
      QueuesOk(qs, pending) && OnTree(qs, o) && QueueOk(id, qs[id])
  {}

  lemma Holds(queues: map<nat, Cfqq>, pending: set<Rq>, id: nat, i: nat)
    requires QueuesOk(queues, pending) && id in queues && i < |queues[id].sort|
    ensures queues[id].sort[i] in pending && queues[id].sort[i].cfqq == id
  {
    hide Increasing;
    assert QueueOk(id, queues[id]) && queues[id].sort[i] in queues[id].sort;
  }

  lemma NoAlias(queues: map<nat, Cfqq>, pending: set<Rq>, queues': map<nat, Cfqq>, pending': set<Rq>, x: Rq)
    requires QueuesOk(queues, pending) && QueuesOk(queues', pending') && pending' == pending - {x} && x in pending
    requires x.cfqq in queues'
    ensures forall j :: 0 <= j < |queues'[x.cfqq].sort| ==> queues'[x.cfqq].sort[j].pos != x.pos
  {
    var sort' := queues'[x.cfqq].sort;
    forall j | 0 <= j < |sort'|
      ensures sort'[j].pos != x.pos
    {
      Holds(queues', pending', x.cfqq, j);
      Member(queues, pending, sort'[j]);
      Member(queues, pending, x);
      var sort := queues[x.cfqq].sort;
      var a :| 0 <= a < |sort| && sort[a] == x;
      var b :| 0 <= b < |sort| && sort[b] == sort'[j];
    }
  }

  lemma SpotFree(sort: seq<Rq>, i: nat, pos: nat)
    requires Increasing(sort) && i <= |sort| && (forall j :: 0 <= j < i ==> sort[j].pos < pos) && (i < |sort| ==> pos < sort[i].pos)
    ensures forall j :: 0 <= j < |sort| ==> sort[j].pos != pos
  {
    forall j | i <= j < |sort|
      ensures sort[j].pos > pos
    {
      assert j == i || sort[i].pos < sort[j].pos;
    }
  }

  lemma InsertIncreasing(q: seq<Rq>, r: Rq, i: nat)
    requires Increasing(q) && i <= |q|
    requires (forall j :: 0 <= j < i ==> q[j].pos < r.pos) && (i < |q| ==> r.pos < q[i].pos)
    ensures Increasing(q[..i] + [r] + q[i..]) && forall x :: x in q[..i] + [r] + q[i..] <==> x == r || x in q
  {
    var s := q[..i] + [r] + q[i..];
    assert q == q[..i] + q[i..] && s[i] == r;
    assert forall k :: 0 <= k < |s| && k != i ==> s[k] == q[if k < i then k else k - 1];
    assert forall k :: i < k < |q| ==> q[i].pos < q[k].pos;
  }

  lemma InsertOk(id: nat, q: Cfqq, r: Rq, i: nat, next: Option<Rq>)
    requires QueueOk(id, q) && r.cfqq == id && i <= |q.sort|
    requires (forall j :: 0 <= j < i ==> q.sort[j].pos < r.pos) && (i < |q.sort| ==> r.pos < q.sort[i].pos)
    requires next == Some(r) || (next.Some? && next == q.next)
    ensures var sort := q.sort[..i] + [r] + q.sort[i..];
      QueueOk(id, Cfqq(sort, next, true)) && forall x :: x in sort <==> x == r || x in q.sort
  {
    hide Increasing;
    InsertIncreasing(q.sort, r, i);
  }

  lemma Enqueued(queues: map<nat, Cfqq>, pending: set<Rq>, r: Rq, i: nat, next: Option<Rq>)
    requires QueuesOk(queues, pending) && r.cfqq in queues && i <= |queues[r.cfqq].sort|
    requires var s := queues[r.cfqq].sort;
      (forall j :: 0 <= j < i ==> s[j].pos < r.pos) && (i < |s| ==> r.pos < s[i].pos)
    requires next == Some(r) || (next.Some? && next == queues[r.cfqq].next)
    ensures var s := queues[r.cfqq].sort;
      QueuesOk(queues[r.cfqq := Cfqq(s[..i] + [r] + s[i..], next, true)], pending + {r})
  {
    hide QueueOk;
    InsertOk(r.cfqq, queues[r.cfqq], r, i, next);
  }

  lemma OffTree(queues: map<nat, Cfqq>, o: seq<nat>, id: nat)
    requires OnTree(queues, o) && id in queues && !queues[id].onRr
    ensures id !in o
  {}

  lemma Marked(queues: map<nat, Cfqq>, o: seq<nat>, o': seq<nat>, id: nat, q: Cfqq)
    requires OnTree(queues, o) && id in queues && q.onRr
    requires if queues[id].onRr then o' == o else forall x :: x in o' <==> x in o || x == id
    ensures OnTree(queues[id := q], o')
  {}

  lemma Member(queues: map<nat, Cfqq>, pending: set<Rq>, r: Rq)
    requires QueuesOk(queues, pending) && r in pending
    ensures r.cfqq in queues && r in queues[r.cfqq].sort && QueueOk(r.cfqq, queues[r.cfqq])
  {}

  lemma Ascending(queues: map<nat, Cfqq>, pending: set<Rq>, id: nat)
    requires QueuesOk(queues, pending) && id in queues
    ensures Increasing(queues[id].sort)
  {
    assert QueueOk(id, queues[id]);
  }

  lemma QueueIncreases(id: nat, q: Cfqq)
    requires QueueOk(id, q)
    ensures Increasing(q.sort)
  {}

  /** The queues without a request. */
  lemma Dequeued(queues: map<nat, Cfqq>, pending: set<Rq>, r: Rq, i: nat, next: Option<Rq>)
    requires QueuesOk(queues, pending) && r in pending && r.cfqq in queues
    requires i < |queues[r.cfqq].sort| && queues[r.cfqq].sort[i] == r
    requires var s := queues[r.cfqq].sort;
      if |s| == 1 then next == None else next.Some? && next.value in s && next.value != r
    ensures var q := queues[r.cfqq]; var sort := q.sort[..i] + q.sort[i + 1..];
      QueuesOk(queues[r.cfqq := Cfqq(sort, next, sort != [])], pending - {r})
  {
    hide QueueOk;
    CutKeeps(r.cfqq, queues[r.cfqq], i, next);
  }

  lemma Emptied(queues: map<nat, Cfqq>, o: seq<nat>, id: nat, q: Cfqq)
    requires OnTree(queues, o) && id in queues && QueueOk(id, queues[id]) && queues[id].sort != []
    ensures id in o
  {}

  lemma Cleared(queues: map<nat, Cfqq>, o: seq<nat>, o': seq<nat>, id: nat, q: Cfqq)
    requires OnTree(queues, o) && id in o
    requires if q.onRr then o' == o else forall x :: x in o' <==> x in o && x != id
    ensures OnTree(queues[id := q], o')
  {}

  lemma SplicedMembers(o: seq<nat>, k: nat, id: nat)
    requires k <= |o|
    ensures |Spliced(o, k, id)| == |o| + 1 && forall x :: x in Spliced(o, k, id) <==> x in o || x == id
  {
    assert o == o[..k] + o[k..];
  }

  /** The queue `id` is taken out of `o` and put where `p` belongs. */
  ghost predicate Relocated(rank: map<nat, Place>, o: seq<nat>, id: nat, p: Place, o': seq<nat>) {
    exists k ::
      && 0 <= k <= |Without(o, id)| && o' == Spliced(Without(o, id), k, id)
      && (Sorted(rank, Without(o, id)) ==> Splits(rank, p, Without(o, id), k))
  }

  lemma SplicedDistinct(o: seq<nat>, k: nat, id: nat)
    requires k <= |o| && Distinct(o) && id !in o
    ensures Distinct(Spliced(o, k, id))
  {
    var s := Spliced(o, k, id);
    assert forall i :: 0 <= i < |s| && i != k ==> s[i] == o[if i < k then i else i - 1];
  }

  lemma CutMembers(q: seq<Rq>, i: nat)
    requires Increasing(q) && i < |q|
    ensures forall x :: x in q[..i] + q[i + 1..] <==> x in q && x != q[i]
  {
    var s := q[..i] + q[i + 1..];
    forall x | x in q && x != q[i]
      ensures x in s
    {
      var k :| 0 <= k < |q| && q[k] == x;
      assert s[if k < i then k else k - 1] == x;
    }
    forall x | x in s
      ensures x in q && x != q[i]
    {
      var k :| 0 <= k < |s| && s[k] == x;
      assert x == q[if k < i then k else k + 1];
    }
  }

  lemma CutIncreasing(q: seq<Rq>, i: nat)
    requires Increasing(q) && i < |q|
    ensures Increasing(q[..i] + q[i + 1..])
  {
    var s := q[..i] + q[i + 1..];
    assert forall k :: 0 <= k < |s| ==> s[k] == q[if k < i then k else k + 1];
  }

  lemma CutKeeps(id: nat, q: Cfqq, i: nat, next: Option<Rq>)
    requires QueueOk(id, q) && i < |q.sort|
    requires if |q.sort| == 1 then next == None else next.Some? && next.value in q.sort && next.value != q.sort[i]
    ensures var sort := q.sort[..i] + q.sort[i + 1..];
      && QueueOk(id, Cfqq(sort, next, sort != []))
      && forall x :: x in sort <==> x in q.sort && x != q.sort[i]
  {
    hide Increasing;
    CutMembers(q.sort, i);
    CutIncreasing(q.sort, i);
  }

  function Spliced(o: seq<nat>, k: nat, id: nat): seq<nat>
    requires k <= |o|
  {
    o[..k] + [id] + o[k..]
  }

  lemma GoingStarts(rank: map<nat, Place>, p: Place, t: Tree)
    ensures Going(rank, p, t, [], t) && AllLeft([])
  {}

  /** The tree with a new node in it. */
  lemma Attached(t: Tree, path: seq<bool>, id: nat, rebalance: Tree -> Tree)
    requires Leads(t, path) && Distinct(InOrder(t))
    requires id !in InOrder(t) && forall u :: InOrder(rebalance(u)) == InOrder(u)
    ensures var r := rebalance(Attach(t, path, id)); var o := InOrder(t);
      && Rank(t, path) <= |o| && InOrder(r) == Spliced(o, Rank(t, path), id)
      && Distinct(InOrder(r)) && |InOrder(r)| == |o| + 1
      && r.Node? && First(r) == (if AllLeft(path) then id else if t.Node? then First(t) else id)
      && forall x :: x in InOrder(r) <==> x in o || x == id
  {
    hide Distinct;
    var r := rebalance(Attach(t, path, id));
    AttachOrder(t, path, id);
    RankZero(t, path);
    var o, k := InOrder(t), Rank(t, path);
    assert InOrder(r) == Spliced(o, k, id);
    SplicedMembers(o, k, id);
    SplicedDistinct(o, k, id);
    FirstInOrder(r);
    if t.Node? {
      FirstInOrder(t);
    }
  }

  /** What is next to a request in the sorted list; behind the last one comes the first. */
  predicate Neighbour(sort: seq<Rq>, i: nat, j: nat) {
    i < |sort| && j < |sort| && j != i && (j + 1 == i || j == i + 1 || (i + 1 == |sort| && j == 0))
  }

  /** Of the neighbours of request `i`, number `j` wins. */
  ghost predicate NeighbourBest(sort: seq<Rq>, i: nat, j: nat, last: nat, t: Tunables) {
    Neighbour(sort, i, j) && forall k: nat :: Neighbour(sort, i, k) && k != j ==> FirstWins(sort[j], sort[k], last, t)
  }

  /** What is next when `r` leaves: the winning neighbour, or none if `r` was alone. */
  ghost predicate Succeeds(sort: seq<Rq>, r: Rq, o: Option<Rq>, last: nat, t: Tunables) {
    if o.None? then sort == [r]
    else exists i: nat, j: nat :: NeighbourBest(sort, i, j, last, t) && sort[i] == r && sort[j] == o.value
  }

  lemma NeighbourWins(sort: seq<Rq>, i: nat, last: nat, t: Tunables)
    requires i < |sort| && Increasing(sort)
    ensures forall j: nat, k: nat :: Neighbour(sort, i, j) && Neighbour(sort, i, k) && j != k ==>
      (FirstWins(sort[j], sort[k], last, t) <==> !FirstWins(sort[k], sort[j], last, t))
  {
    hide FirstWins;
    forall j: nat, k: nat | Neighbour(sort, i, j) && Neighbour(sort, i, k) && j != k
      ensures FirstWins(sort[j], sort[k], last, t) <==> !FirstWins(sort[k], sort[j], last, t)
    {
      var c := Rq(0, 0, sort[j].pos + sort[k].pos + 1, false, false);
      ChoiceIsAnOrder(sort[j], sort[k], c, last, t);
    }
  }
}
