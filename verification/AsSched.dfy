/** The anticipatory scheduler's queue of one data direction: the cached next request is the best
    one after every arrival, removal and dispatch. */
module AsSched {
  import opened Options
  import opened AsModel

  class AsQueue {
    var sort: seq<Rq>
    var last: nat
    var next: Option<Rq>
    // the requests moved to the dispatch queue so far
    var dispatched: seq<Rq>

    /** The cached request is queued, and there is one while any is. */
    ghost predicate Valid()
      reads this
    {
      && Increasing(sort)
      && (if next.None? then sort == [] else next.value in sort)
    }

    ghost predicate Best()
      reads this
    {
      IsBest(sort, last, next)
    }

    constructor ()
      ensures Valid() && Best() && sort == [] && dispatched == []
    {
      sort, last, next, dispatched := [], 0, None, [];
    }

    /** as_choose_req */
    method ChooseReq(a: Option<Rq>, b: Option<Rq>) returns (o: Option<Rq>)
      ensures o == Choose(a, b, last)
    {
      if a.None? || a == b {
        return b;
      }
      if b.None? {
        return a;
      }
      var s1, s2 := a.value.pos, b.value.pos;
      var d1, d2, wrap1, wrap2 := 0, 0, false, false;
      if s1 >= last {
        d1 := s1 - last;
      } else if s1 + MAXBACK >= last {
        d1 := (last - s1) * BACK_PENALTY;
      } else {
        wrap1 := true;
      }
      if s2 >= last {
        d2 := s2 - last;
      } else if s2 + MAXBACK >= last {
        d2 := (last - s2) * BACK_PENALTY;
      } else {
        wrap2 := true;
      }
      if !wrap1 && wrap2 {
        return a;
      } else if !wrap2 && wrap1 {
        return b;
      } else if wrap1 && wrap2 {
        return if s1 <= s2 then a else b;
      }
      if d1 < d2 {
        return a;
      } else if d2 < d1 {
        return b;
      }
      return if s1 >= s2 then a else b;
    }

    /** as_find_next_rq */
    method FindNext(i: nat) returns (o: Option<Rq>)
      requires i < |sort|
      ensures o == Neighbour(sort, i, last)
    {
      var after, before: Option<Rq> := None, None;
      if i > 0 {
        before := Some(sort[i - 1]);
      }
      if i + 1 < |sort| {
        after := Some(sort[i + 1]);
      } else if i != 0 {
        after := Some(sort[0]);
      }
      o := ChooseReq(after, before);
    }

    /** as_remove_queued_request: the best of the rest is next. */
    method RemoveQueued(i: nat)
      requires Increasing(sort) && i < |sort|
      requires if next.None? then Cut(sort, i) == [] else next.value in sort
      modifies this`sort, this`next
      ensures Valid() && sort == Cut(old(sort), i)
      ensures old(Best()) ==> Best()
      ensures next == if old(next) == Some(old(sort)[i]) then Neighbour(old(sort), i, last) else old(next)
    {
      hide Neighbour, Better;
      CutKeeps(sort, i);
      if next == Some(sort[i]) {
        if Best() {
          BestIsBeside(sort, i, last);
          NeighbourIsBest(sort, i, last);
        }
        NeighbourSane(sort, i, last);
        next := FindNext(i);
      }
      sort := Cut(sort, i);
    }

    /** as_move_to_dispatch: the head moves, and the cached request is the best for it exactly when
        nothing better hides behind a request that starts inside the one dispatched. */
    method MoveToDispatch(i: nat)
      requires Valid() && i < |sort|
      modifies this
      ensures Valid() && sort == Cut(old(sort), i) && last == old(sort)[i].End()
      ensures Best() <==> Clear(old(sort), i)
      ensures dispatched == old(dispatched) + [old(sort)[i]]
    {
      hide Neighbour, Better, Clear, IsBest;
      var rq := sort[i];
      DispatchBestIff(sort, i);
      NeighbourSane(sort, i, rq.End());
      last := rq.End();
      next := FindNext(i);
      RemoveQueued(i);
      dispatched := dispatched + [rq];
    }

    /** elv_rb_add, on the sorted list. */
    method RbAdd(rq: Rq) returns (alias: Option<nat>)
      requires Increasing(sort)
      modifies this`sort
      ensures alias.Some? ==> sort == old(sort) && alias.value < |sort| && sort[alias.value].pos == rq.pos
      ensures alias.None? ==> Increasing(sort) && multiset(sort) == multiset(old(sort)) + multiset{rq}
      ensures alias.None? <==> Free(old(sort), rq.pos)
    {
      var i := 0;
      while i < |sort| && sort[i].pos < rq.pos
        invariant i <= |sort| && forall j :: 0 <= j < i ==> sort[j].pos < rq.pos
      {
        i := i + 1;
      }
      if i < |sort| && sort[i].pos == rq.pos {
        return Some(i);
      }
      InsertKeeps(sort, i, rq);
      sort := sort[..i] + [rq] + sort[i..];
      return None;
    }

    /** as_update_rq: `rq` has joined the queue `before` and becomes next if it is better. */
    method UpdateRq(rq: Rq, ghost before: seq<Rq>)
      requires Increasing(sort) && (forall x :: x in sort <==> x == rq || x in before) && Free(before, rq.pos)
      requires if next.None? then before == [] else next.value in before
      modifies this`next
      ensures Valid() && (IsBest(before, last, old(next)) ==> Best())
    {
      hide FirstWins, Better;
      if next.Some? {
        assert rq.pos != next.value.pos by {
          var k :| 0 <= k < |before| && before[k] == next.value;
        }
        JoinBest(before, sort, rq, next.value, last);
      } else {
        assert forall i :: 0 <= i < |sort| ==> sort[i] in sort;
      }
      next := ChooseReq(Some(rq), next);
      assert sort != [] by { assert rq in sort; }
    }

    /** as_add_request: a request at the same sector is dispatched first. */
    method AddRequest(rq: Rq)
      requires Valid()
      modifies this
      ensures Valid()
      ensures Free(old(sort), rq.pos) ==>
        && (old(Best()) ==> Best())
        && multiset(sort) == multiset(old(sort)) + multiset{rq} && dispatched == old(dispatched)
      ensures !Free(old(sort), rq.pos) ==>
        exists i :: 0 <= i < |old(sort)| && old(sort)[i].pos == rq.pos && dispatched == old(dispatched) + [old(sort)[i]]
          && multiset(sort) == multiset(Cut(old(sort), i)) + multiset{rq} && (Clear(old(sort), i) ==> Best())
    {
      hide Better, Clear, Cut, IsBest, FirstWins;
      ghost var before := sort;
      var alias := RbAdd(rq);
      if alias.Some? {
        AliasFree(sort, alias.value);
        MoveToDispatch(alias.value);
        before := sort;
        alias := RbAdd(rq);
      }
      Joined(before, sort, rq);
      UpdateRq(rq, before);
    }

    /** as_dispatch_request, forced: everything queued goes, each request once. */
    method ForceDispatch() returns (n: nat)
      requires Valid()
      modifies this
      ensures Valid() && sort == [] && next.None? && n == |old(sort)|
      ensures old(dispatched) <= dispatched
      ensures multiset(dispatched) == multiset(old(dispatched)) + multiset(old(sort))
    {
      hide Clear, Better;
      n := 0;
      while next.Some?
        invariant Valid() && n + |sort| == |old(sort)| && old(dispatched) <= dispatched
        invariant multiset(dispatched) + multiset(sort) == multiset(old(dispatched)) + multiset(old(sort))
        decreases |sort|
      {
        var i := Find(next.value);
        CutTally(sort, i);
        MoveToDispatch(i);
        n := n + 1;
      }
    }

    method Find(rq: Rq) returns (i: nat)
      requires rq in sort
      ensures i < |sort| && sort[i] == rq
    {
      i := 0;
      while sort[i] != rq
        invariant i < |sort| && rq !in sort[..i]
        decreases |sort| - i
      {
        i := i + 1;
      }
    }
  }

  /** No request starts at this sector. */
  ghost predicate Free(q: seq<Rq>, pos: nat) {
    forall i :: 0 <= i < |q| ==> q[i].pos != pos
  }

  lemma Joined(before: seq<Rq>, q: seq<Rq>, rq: Rq)
    requires multiset(q) == multiset(before) + multiset{rq}
    ensures forall x :: x in q <==> x == rq || x in before
  {
    assert forall x :: x in q <==> x in multiset(q);
    assert forall x :: x in before <==> x in multiset(before);
  }

  /** The better of the best and a new request is the best of all. */
  lemma JoinBest(before: seq<Rq>, q: seq<Rq>, rq: Rq, b: Rq, last: nat)
    requires (forall x :: x in q <==> x == rq || x in before) && b in before && b.pos != rq.pos
    ensures IsBest(before, last, Some(b)) ==> IsBest(q, last, Choose(Some(rq), Some(b), last))
  {
    if IsBest(before, last, Some(b)) {
      var o := Choose(Some(rq), Some(b), last).value;
      forall i | 0 <= i < |q|
        ensures q[i] == o || Better(o.pos, q[i].pos, last)
      {
        assert q[i] in q;
        if q[i] in before {
          var k :| 0 <= k < |before| && before[k] == q[i];
          BetterIsStrictTotal(rq.pos, b.pos, q[i].pos, last);
        } else {
          BetterIsStrictTotal(rq.pos, b.pos, 0, last);
        }
      }
    }
  }

  lemma CutTally(q: seq<Rq>, i: nat)
    requires i < |q|
    ensures multiset(Cut(q, i)) + multiset{q[i]} == multiset(q)
  {
    assert q == q[..i] + ([q[i]] + q[i + 1..]);
  }

  lemma AliasFree(q: seq<Rq>, i: nat)
    requires Increasing(q) && i < |q|
    ensures Free(Cut(q, i), q[i].pos)
  {}

  lemma InsertKeeps(q: seq<Rq>, i: nat, rq: Rq)
    requires Increasing(q) && i <= |q|
    requires (forall j :: 0 <= j < i ==> q[j].pos < rq.pos) && (i < |q| ==> rq.pos < q[i].pos)
    ensures Increasing(q[..i] + [rq] + q[i..]) && multiset(q[..i] + [rq] + q[i..]) == multiset(q) + multiset{rq}
    ensures Free(q, rq.pos)
  {
    var r := q[..i] + [rq] + q[i..];
    assert q == q[..i] + q[i..];
    AllLater(q, i, rq);
    InsertIncreasing(q, i, rq);
  }

  lemma AllLater(q: seq<Rq>, i: nat, rq: Rq)
    requires Increasing(q) && i <= |q| && (i < |q| ==> rq.pos < q[i].pos)
    ensures forall k :: i <= k < |q| ==> rq.pos < q[k].pos
  {
    forall k | i <= k < |q|
      ensures rq.pos < q[k].pos
    {
      assert k == i || q[i].pos < q[k].pos;
    }
  }

  lemma InsertIncreasing(q: seq<Rq>, i: nat, rq: Rq)
    requires Increasing(q) && i <= |q|
    requires (forall j :: 0 <= j < i ==> q[j].pos < rq.pos) && (forall j :: i <= j < |q| ==> rq.pos < q[j].pos)
    ensures Increasing(q[..i] + [rq] + q[i..])
  {
    var r := q[..i] + [rq] + q[i..];
    assert forall k :: 0 <= k < i ==> r[k] == q[k];
    assert forall k :: i < k < |r| ==> r[k] == q[k - 1];
  }

  lemma CutKeeps(q: seq<Rq>, i: nat)
    requires i < |q| && Increasing(q)
    ensures Increasing(Cut(q, i)) && |Cut(q, i)| == |q| - 1
    ensures forall x :: x in Cut(q, i) <==> x in q && x != q[i]
    ensures forall last, o :: IsBest(q, last, o) && o != Some(q[i]) ==> IsBest(Cut(q, i), last, o)
  {
    hide Better;
    var r := Cut(q, i);
    forall x | x in q && x != q[i]
      ensures x in r
    {
      var k :| 0 <= k < |q| && q[k] == x;
      assert r[if k < i then k else k - 1] == x;
    }
  }

  lemma NeighbourSane(q: seq<Rq>, i: nat, last: nat)
    requires i < |q| && Increasing(q)
    ensures var o := Neighbour(q, i, last);
      if o.None? then Cut(q, i) == [] else o.value in Cut(q, i) && o != Some(q[i])
  {
    if |q| > 1 {
      var k := NeighbourInQueue(q, i, last);
      assert Cut(q, i)[if k < i then k else k - 1] == q[k];
      assert q[k].pos != q[i].pos;
    }
  }
}
