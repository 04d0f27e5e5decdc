/** Submitting bios without recursion: what handlers submit while one is at work waits in a list
    threaded through the bios themselves, and is handled first come, first served. */
module Submit {

  /** A bio and, in order, what its handler will submit. */
  datatype Node = Node(id: nat, kids: seq<Node>)

  function Weight(n: Node): nat
    decreases n, 0
  {
    1 + Weights(n.kids)
  }

  function Weights(q: seq<Node>): nat
    decreases q, 1
  {
    if q == [] then 0 else Weight(q[0]) + Weights(q[1..])
  }

  lemma {:induction false} WeightsConcat(p: seq<Node>, q: seq<Node>)
    ensures Weights(p + q) == Weights(p) + Weights(q)
    decreases |p|
  {
    if p == [] {
      assert p + q == q;
    } else {
      WeightsConcat(p[1..], q);
      assert (p + q)[1..] == p[1..] + q;
    }
  }

  lemma Lighter(q: seq<Node>)
    requires q != []
    ensures Weights(q[1..] + q[0].kids) < Weights(q)
  {
    WeightsConcat(q[1..], q[0].kids);
    assert Weights(q) == Weight(q[0]) + Weights(q[1..]);
    assert Weight(q[0]) == 1 + Weights(q[0].kids);
  }

  /** The order in which a first come, first served worklist handles everything. */
  function Fifo(q: seq<Node>): seq<nat>
    decreases Weights(q)
  {
    if q == [] then []
    else
      Lighter(q);
      [q[0].id] + Fifo(q[1..] + q[0].kids)
  }

  ghost predicate Distinct(q: seq<Node>) {
    forall i, j :: 0 <= i < j < |q| ==> q[i].id != q[j].id
  }

  /** No bio is submitted while it is already waiting. */
  ghost predicate Sound(q: seq<Node>)
    decreases Weights(q)
  {
    Distinct(q) && (q == [] || (Lighter(q); Sound(q[1..] + q[0].kids)))
  }

  /** The bios of a tree, each as often as it occurs. */
  function Tally(n: Node): multiset<nat>
    decreases n, 0
  {
    multiset{n.id} + Tallies(n.kids)
  }

  function Tallies(q: seq<Node>): multiset<nat>
    decreases q, 1
  {
    if q == [] then multiset{} else Tally(q[0]) + Tallies(q[1..])
  }

  lemma {:induction false} TalliesConcat(p: seq<Node>, q: seq<Node>)
    ensures Tallies(p + q) == Tallies(p) + Tallies(q)
    decreases |p|
  {
    hide Tally;
    if p == [] {
      assert p + q == q;
    } else {
      TalliesConcat(p[1..], q);
      assert (p + q)[1..] == p[1..] + q && (p + q)[0] == p[0];
      var a, b, c := Tally(p[0]), Tallies(p[1..]), Tallies(q);
      assert Tallies(p + q) == a + (b + c) == (a + b) + c;
    }
  }

  /** Everything submitted is handled exactly once. */
  lemma {:induction false} FifoHandlesAll(q: seq<Node>)
    ensures multiset(Fifo(q)) == Tallies(q)
    decreases Weights(q)
  {
    if q != [] {
      Lighter(q);
      FifoHandlesAll(q[1..] + q[0].kids);
      TalliesConcat(q[1..], q[0].kids);
      assert Tally(q[0]) == multiset{q[0].id} + Tallies(q[0].kids);
    }
  }

  /** One bio handled: what waits is sound, and the order goes on as before. */
  lemma NextWork(done: seq<nat>, work: seq<Node>)
    requires Sound(work) && work != []
    ensures var more := work[1..] + work[0].kids;
      && Distinct(work) && Distinct(more) && Sound(more) && Weights(more) < Weights(work)
      && done + [work[0].id] + Fifo(more) == done + Fifo(work)
  {
    hide Distinct, Weights;
    Lighter(work);
    var more := work[1..] + work[0].kids;
    assert done + ([work[0].id] + Fifo(more)) == done + [work[0].id] + Fifo(more);
  }

  lemma NothingLeft(done: seq<nat>)
    ensures done + Fifo([]) == done
  {}

  datatype Link = Null | To(bio: Node)

  /** Where the next bio is to be hooked in: nowhere, into the list head, or behind a bio. */
  datatype Slot = Inactive | Head | Behind(id: nat)

  function LinkTo(q: seq<Node>, i: nat): Link {
    if i < |q| then To(q[i]) else Null
  }

  lemma DistinctPrefix(q: seq<Node>, p: seq<Node>)
    requires Distinct(q) && p <= q
    ensures Distinct(p)
  {}

  class Task {
    var next: map<nat, Link>
    var bioList: Link
    var bioTail: Slot
    // the bios given to their handlers so far
    var handled: seq<nat>
    ghost var queue: seq<Node>
    ghost var busy: bool

    /** The list through the bios is the queue, and the tail slot is at its end. */
    ghost predicate Threaded()
      reads this`next, this`bioList, this`bioTail, this`queue
    {
      && bioList == LinkTo(queue, 0) && Distinct(queue)
      && (forall i :: 0 <= i < |queue| ==> queue[i].id in next && next[queue[i].id] == LinkTo(queue, i + 1))
      && (bioTail == Inactive ==> queue == [])
      && (bioTail != Inactive ==> bioTail == if queue == [] then Head else Behind(queue[|queue| - 1].id))
    }

    constructor ()
      ensures Threaded() && bioTail == Inactive && handled == [] && !busy
    {
      next, bioList, bioTail, handled, queue, busy := map[], Null, Inactive, [], [], false;
    }

    /** generic_make_request while a handler is at work: the bio joins the list. */
    method Append(b: Node)
      requires Threaded() && bioTail != Inactive && Distinct(queue + [b])
      modifies this`next, this`bioList, this`bioTail, this`queue
      ensures Threaded() && bioTail != Inactive && queue == old(queue) + [b]
      ensures forall x :: x in old(next) && x != b.id && (old(queue) == [] || x != old(queue)[|old(queue)| - 1].id) ==>
        x in next && next[x] == old(next)[x]
    {
      match bioTail {
        case Inactive =>
        case Head => bioList := To(b);
        case Behind(id) => next := next[id := To(b)];
      }
      next := next[b.id := Null];
      bioTail := Behind(b.id);
      ghost var q := queue;
      assert forall i :: 0 <= i < |q| ==> (q + [b])[i] == q[i] && (q + [b])[i].id != (q + [b])[|q|].id;
      queue := queue + [b];
    }

    /** __generic_make_request: the handler submits, one after the other, what it has to. */
    method Handle(b: Node)
      requires Threaded() && bioTail != Inactive && !busy && Distinct(queue + b.kids)
      modifies this
      ensures Threaded() && bioTail != Inactive && !busy
      ensures queue == old(queue) + b.kids && handled == old(handled) + [b.id]
      decreases 1
    {
      hide Threaded, Distinct;
      handled := handled + [b.id];
      busy := true;
      var i := 0;
      ghost var q := queue;
      assert q + b.kids[..0] == q;
      while i < |b.kids|
        invariant 0 <= i <= |b.kids|
        invariant Threaded() && bioTail != Inactive && busy
        invariant queue == q + b.kids[..i] && handled == old(handled) + [b.id]
      {
        assert q + b.kids[..i + 1] == q + b.kids[..i] + [b.kids[i]];
        DistinctPrefix(q + b.kids, q + b.kids[..i + 1]);
        Submit(b.kids[i]);
        i := i + 1;
      }
      assert b.kids[..i] == b.kids;
      busy := false;
    }

    /** generic_make_request.  Called from a handler it only queues; otherwise it handles the bio and
        everything its handlers submit, first come, first served. */
    method Submit(b: Node)
      requires Threaded() && (bioTail == Inactive ==> !busy)
      requires bioTail == Inactive ==> Sound([b]) && (b.id in next ==> next[b.id] == Null)
      requires bioTail != Inactive ==> Distinct(queue + [b])
      modifies this
      ensures Threaded()
      ensures bioTail == Inactive <==> old(bioTail) == Inactive
      ensures old(bioTail) != Inactive ==> queue == old(queue) + [b] && handled == old(handled) && busy == old(busy)
      ensures old(bioTail) == Inactive ==> queue == [] && handled == old(handled) + Fifo([b]) && !busy
      decreases if bioTail == Inactive then 2 else 0
    {
      hide Distinct, Fifo, Weights, Threaded, Linked, Sound;
      if bioTail != Inactive {
        Append(b);
        return;
      }
      next := next[b.id := Null];
      Alone(b);
      var bio := b;
      var done := false;
      ghost var work := [b];
      while !done
        invariant Sound(work) && !busy && (done <==> work == [])
        invariant !done ==> work[0] == bio && Linked(work) && (|work| > 1 ==> bioTail == Behind(work[|work| - 1].id))
        invariant done ==> Threaded() && queue == []
        invariant handled + Fifo(work) == old(handled) + Fifo([b])
        decreases Weights(work)
      {
        NextWork(handled, work);
        TakeFirst(bio, work);
        Handle(bio);
        Ends();
        work := queue;
        done := bioList == Null;
        if !done {
          bio := bioList.bio;
        }
      }
      NothingLeft(handled);
      Finish();
    }

    /** No handler is at work any more. */
    method Finish()
      requires Threaded() && queue == []
      modifies this`bioTail
      ensures Threaded() && bioTail == Inactive
    {
      bioTail := Inactive;
    }

    lemma Alone(b: Node)
      requires b.id in next && next[b.id] == Null
      ensures Linked([b])
    {}

    /** What the list shows of the queue. */
    lemma Ends()
      requires Threaded() && bioTail != Inactive
      ensures bioList == Null <==> queue == []
      ensures queue != [] ==> bioList == To(queue[0]) && Linked(queue)
      ensures |queue| > 1 ==> bioTail == Behind(queue[|queue| - 1].id)
    {}

    ghost predicate Linked(q: seq<Node>)
      reads this
    {
      forall i :: 0 <= i < |q| ==> q[i].id in next && next[q[i].id] == LinkTo(q, i + 1)
    }

    /** The first bio is taken off, and the tail slot set to the end of the rest. */
    method TakeFirst(bio: Node, ghost work: seq<Node>)
      requires work != [] && work[0] == bio && Linked(work) && Distinct(work) && !busy
      requires |work| > 1 ==> bioTail == Behind(work[|work| - 1].id)
      modifies this`next, this`bioList, this`bioTail, this`queue
      ensures Threaded() && bioTail != Inactive && queue == work[1..]
    {
      bioList := next[bio.id];
      if next[bio.id] == Null {
        bioTail := Head;
      } else {
        next := next[bio.id := Null];
      }
      queue := work[1..];
    }
  }
}
