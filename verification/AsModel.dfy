/** Choosing the next request of the anticipatory scheduler: a one-way elevator that also takes
    short steps back, and a cached choice kept up to date by looking at neighbours only. */
module AsModel {
  import opened Options

  const MAXBACK := 1024 * 1024
  const BACK_PENALTY := 2

  datatype Rq = Rq(id: nat, pos: nat, sectors: nat)
  {
    function End(): nat { pos + sectors }
  }

  // The order of as_choose_req

  /** Too far behind the head. */
  predicate Wrapped(s: nat, last: nat) { s + MAXBACK < last }

  function Distance(s: nat, last: nat): nat {
    if s >= last then s - last else (last - s) * BACK_PENALTY
  }

  /** as_choose_req for two requests that differ. */
  predicate FirstWins(s1: nat, s2: nat, last: nat) {
    var w1, w2 := Wrapped(s1, last), Wrapped(s2, last);
    if !w1 && w2 then true
    else if !w2 && w1 then false
    else if w1 && w2 then s1 <= s2
    else
      var d1, d2 := Distance(s1, last), Distance(s2, last);
      if d1 < d2 then true else if d2 < d1 then false else s1 >= s2
  }

  /** The order behind the choice. */
  predicate Better(s1: nat, s2: nat, last: nat) { s1 != s2 && FirstWins(s1, s2, last) }

  lemma BetterIsStrictTotal(a: nat, b: nat, c: nat, last: nat)
    ensures !Better(a, a, last)
    ensures a != b ==> (Better(a, b, last) <==> !Better(b, a, last))
    ensures Better(a, b, last) && Better(b, c, last) ==> Better(a, c, last)
  {}

  /** What the order is, for sectors `a < b`: ahead of the head the nearer one; behind it the nearer one too, unless
      both are more than 1024 * 1024 sectors back, when the lower one is first; and one behind wins over one ahead
      if it is at most that far back and less than half as far away. */
  lemma BetterMeans(a: nat, b: nat, last: nat)
    requires a < b
    ensures last <= a ==> Better(a, b, last)
    ensures a < last <= b ==> (Better(a, b, last) <==> last - a <= 1024 * 1024 && 2 * (last - a) < b - last)
    ensures b < last ==> (Better(a, b, last) <==> last - b > 1024 * 1024)
  {
    assert MAXBACK == 1024 * 1024;
  }

  function Choose(a: Option<Rq>, b: Option<Rq>, last: nat): Option<Rq> {
    if a.None? || a == b then b
    else if b.None? then a
    else if FirstWins(a.value.pos, b.value.pos, last) then a else b
  }

  // Queues

  ghost predicate Increasing(q: seq<Rq>) {
    forall i, j :: 0 <= i < j < |q| ==> q[i].pos < q[j].pos
  }

  /** `o` is the request to serve next. */
  ghost predicate IsBest(q: seq<Rq>, last: nat, o: Option<Rq>) {
    if o.None? then q == []
    else o.value in q && forall i :: 0 <= i < |q| ==> q[i] == o.value || Better(o.value.pos, q[i].pos, last)
  }

  function Cut(q: seq<Rq>, i: nat): seq<Rq>
    requires i < |q|
  {
    q[..i] + q[i + 1..]
  }

  /** as_find_next_rq: the better of the two neighbours, going round to the first. */
  function Neighbour(q: seq<Rq>, i: nat, last: nat): Option<Rq>
    requires i < |q|
  {
    var next := if i + 1 < |q| then Some(q[i + 1]) else if i > 0 then Some(q[0]) else None;
    var prev := if i > 0 then Some(q[i - 1]) else None;
    Choose(next, prev, last)
  }

  /** Where a request may be for its neighbours to decide: just behind the head, just ahead of it,
      or first while all are far behind. */
  ghost predicate Beside(q: seq<Rq>, i: nat, last: nat)
    requires i < |q|
  {
    || (q[i].pos < last && (i + 1 < |q| ==> last <= q[i + 1].pos))
    || (last <= q[i].pos && (i > 0 ==> q[i - 1].pos < last))
    || (i == 0 && forall j :: 0 <= j < |q| ==> Wrapped(q[j].pos, last))
  }

  /** The requests before index `i` are behind the head, the others at or ahead of it. */
  ghost predicate Split(q: seq<Rq>, i: nat, last: nat)
    requires i < |q|
  {
    (forall j :: 0 <= j < i ==> q[j].pos < last) && (forall j :: i < j < |q| ==> last <= q[j].pos)
  }

  lemma ChooseBetter(a: Rq, b: Rq, last: nat, x: nat)
    requires a == b || a.pos != b.pos
    ensures var o := Choose(Some(a), Some(b), last);
      && o.Some? && (o.value == a || o.value == b)
      && (Better(a.pos, x, last) || a.pos == x ==> Better(o.value.pos, x, last) || o.value.pos == x)
      && (Better(b.pos, x, last) || b.pos == x ==> Better(o.value.pos, x, last) || o.value.pos == x)
  {
    BetterIsStrictTotal(a.pos, b.pos, x, last);
    BetterIsStrictTotal(b.pos, a.pos, x, last);
  }

  /** Some neighbour is at least as good as any other request. */
  lemma SomeNeighbour(q: seq<Rq>, i: nat, last: nat, k: nat)
    requires Increasing(q) && i < |q| && k < |q| && k != i && Split(q, i, last)
    ensures var next := if i + 1 < |q| then q[i + 1] else q[0];
      || (next.pos == q[k].pos || Better(next.pos, q[k].pos, last))
      || (i > 0 && (q[i - 1].pos == q[k].pos || Better(q[i - 1].pos, q[k].pos, last)))
  {
    if k > i {
      assert k == i + 1 || q[i + 1].pos < q[k].pos;
    } else {
      assert k == i - 1 || q[k].pos < q[i - 1].pos;
      assert k == 0 || q[0].pos < q[k].pos;
    }
  }

  lemma BestOf(q: seq<Rq>, i: nat, last: nat, k: nat)
    requires Increasing(q) && i < |q| && k < |q| && k != i && Split(q, i, last)
    ensures Neighbour(q, i, last).Some?
    ensures Neighbour(q, i, last).value.pos == q[k].pos || Better(Neighbour(q, i, last).value.pos, q[k].pos, last)
  {
    hide Better;
    SomeNeighbour(q, i, last, k);
    if i > 0 {
      var next := if i + 1 < |q| then q[i + 1] else q[0];
      ChooseBetter(next, q[i - 1], last, q[k].pos);
    }
  }

  lemma BesideSplits(q: seq<Rq>, i: nat, last: nat)
    requires Increasing(q) && i < |q| && Beside(q, i, last)
    ensures Split(q, i, last) || (i == 0 && forall j :: 0 <= j < |q| ==> Wrapped(q[j].pos, last))
  {
    assert forall j :: i + 1 < j < |q| ==> q[i + 1].pos < q[j].pos;
    assert forall j :: 0 <= j < i - 1 ==> q[j].pos < q[i - 1].pos;
  }

  /** The same place in the queue, the same request. */
  lemma SamePos(q: seq<Rq>, a: nat, b: nat)
    requires Increasing(q) && a < |q| && b < |q| && q[a].pos == q[b].pos
    ensures a == b
  {}

  lemma NeighbourInQueue(q: seq<Rq>, i: nat, last: nat) returns (k: nat)
    requires i < |q| && |q| > 1
    ensures k < |q| && k != i && Neighbour(q, i, last) == Some(q[k])
  {
    if i + 1 < |q| && Neighbour(q, i, last) == Some(q[i + 1]) {
      k := i + 1;
    } else if i > 0 && Neighbour(q, i, last) == Some(q[i - 1]) {
      k := i - 1;
    } else {
      k := 0;
    }
  }

  /** The neighbours of a request beside the head decide for the whole queue. */
  lemma NeighbourIsBest(q: seq<Rq>, i: nat, last: nat)
    requires Increasing(q) && i < |q| && Beside(q, i, last)
    ensures IsBest(Cut(q, i), last, Neighbour(q, i, last))
  {
    hide Better, Neighbour;
    var r := Cut(q, i);
    if |q| == 1 {
      Alone(q, i, last);
    } else {
      var n := NeighbourInQueue(q, i, last);
      assert r[if n < i then n else n - 1] == q[n];
      BesideSplits(q, i, last);
      forall j | 0 <= j < |r|
        ensures r[j] == q[n] || Better(q[n].pos, r[j].pos, last)
      {
        var k := if j < i then j else j + 1;
        assert r[j] == q[k];
        if Split(q, i, last) {
          BestOf(q, i, last, k);
        } else {
          AllBehind(q, last, k);
        }
        if q[n].pos == q[k].pos {
          SamePos(q, n, k);
        }
      }
    }
  }

  lemma Alone(q: seq<Rq>, i: nat, last: nat)
    requires i < |q| == 1
    ensures Neighbour(q, i, last) == None && Cut(q, i) == []
  {}

  lemma AllBehind(q: seq<Rq>, last: nat, k: nat)
    requires Increasing(q) && |q| > 1 && 0 < k < |q| && forall j :: 0 <= j < |q| ==> Wrapped(q[j].pos, last)
    ensures Neighbour(q, 0, last) == Some(q[1])
    ensures q[1].pos == q[k].pos || Better(q[1].pos, q[k].pos, last)
  {
    assert k == 1 || q[1].pos < q[k].pos;
    assert Wrapped(q[1].pos, last) && Wrapped(q[k].pos, last);
  }

  /** The best request is beside the head, so its neighbours decide when it goes away. */
  lemma BestIsBeside(q: seq<Rq>, i: nat, last: nat)
    requires Increasing(q) && i < |q| && IsBest(q, last, Some(q[i]))
    ensures Beside(q, i, last)
  {
    if Wrapped(q[i].pos, last) {
      assert i > 0 ==> Better(q[i].pos, q[0].pos, last);
    } else if q[i].pos < last {
      assert i + 1 < |q| ==> Better(q[i].pos, q[i + 1].pos, last);
    } else {
      assert i > 0 ==> Better(q[i].pos, q[i - 1].pos, last);
    }
  }

  /** When the neighbours decide after request `i` is dispatched: no other starts inside it; or the one
      after it does and is better than the one after that; or it is far behind the new head already, as
      all are, and what the neighbours give is the first of them. */
  predicate Clear(q: seq<Rq>, i: nat)
    requires i < |q|
  {
    var end := q[i].End();
    || i + 1 == |q| || end <= q[i + 1].pos
    || (if Wrapped(q[i + 1].pos, end) then i <= 1 && Wrapped(q[|q| - 1].pos, end)
        else i + 2 == |q| || (end <= q[i + 2].pos && Better(q[i + 1].pos, q[i + 2].pos, end)))
  }

  lemma InsideBeats(q: seq<Rq>, i: nat, k: nat)
    requires Increasing(q) && i + 1 < |q| && k < i && q[i + 1].pos < q[i].End() && !Wrapped(q[i + 1].pos, q[i].End())
    ensures Better(q[i + 1].pos, q[k].pos, q[i].End())
  {
    assert q[k].pos < q[i].pos < q[i + 1].pos;
  }

  /** The one request inside is the choice, and is best if it beats the next. */
  lemma InsideIsBest(q: seq<Rq>, i: nat)
    requires Increasing(q) && i + 1 < |q| && q[i + 1].pos < q[i].End() && !Wrapped(q[i + 1].pos, q[i].End()) && Clear(q, i)
    ensures IsBest(Cut(q, i), q[i].End(), Neighbour(q, i, q[i].End()))
  {
    hide Better;
    var last := q[i].End();
    var r := Cut(q, i);
    assert Neighbour(q, i, last) == Some(q[i + 1]) by {
      if i > 0 {
        InsideBeats(q, i, i - 1);
        BetterWins(q[i + 1].pos, q[i - 1].pos, last);
      }
    }
    assert r[i] == q[i + 1];
    forall j | 0 <= j < |r|
      ensures r[j] == q[i + 1] || Better(q[i + 1].pos, r[j].pos, last)
    {
      if j < i {
        InsideBeats(q, i, j);
      } else if j > i + 1 {
        assert r[j] == q[j + 1] && q[i + 2].pos < q[j + 1].pos;
        FurtherAhead(q[i + 1].pos, q[i + 2].pos, q[j + 1].pos, last);
      }
    }
  }

  lemma BetterWins(a: nat, b: nat, last: nat)
    requires Better(a, b, last)
    ensures FirstWins(a, b, last) && a != b
  {}

  lemma FurtherAhead(a: nat, b: nat, c: nat, last: nat)
    requires Better(a, b, last) && last <= b < c
    ensures Better(a, c, last)
  {
    BetterIsStrictTotal(a, b, c, last);
  }

  /** Otherwise the request after the first inside is better than both neighbours. */
  lemma NotClearNotBest(q: seq<Rq>, i: nat)
    requires Increasing(q) && i + 1 < |q| && !Wrapped(q[i + 1].pos, q[i].End()) && !Clear(q, i)
    ensures !IsBest(Cut(q, i), q[i].End(), Neighbour(q, i, q[i].End()))
  {
    var last := q[i].End();
    var r := Cut(q, i);
    assert r[i + 1] == q[i + 2];
    assert q[i + 1].pos < q[i + 2].pos;
    BetterIsStrictTotal(q[i + 2].pos, q[i + 1].pos, 0, last);
    assert Better(q[i + 2].pos, q[i + 1].pos, last);
    if i > 0 {
      InsideBeats(q, i, i - 1);
    }
    assert Neighbour(q, i, last) == Some(q[i + 1]);
  }

  /** With the next request far behind the new head, the neighbours give the one before, or the next if it
      was the first. */
  lemma FarNeighbour(q: seq<Rq>, i: nat) returns (n: nat)
    requires Increasing(q) && i + 1 < |q| && Wrapped(q[i + 1].pos, q[i].End())
    ensures n == (if i > 0 then i - 1 else 1) && Neighbour(q, i, q[i].End()) == Some(q[n]) && Wrapped(q[n].pos, q[i].End())
  {
    n := if i > 0 then i - 1 else 1;
    assert i > 0 ==> q[i - 1].pos < q[i].pos < q[i + 1].pos;
  }

  /** That is the best one exactly if it is the first of all, and all are far behind. */
  lemma FarIsBestIff(q: seq<Rq>, i: nat)
    requires Increasing(q) && i + 1 < |q| && Wrapped(q[i + 1].pos, q[i].End())
    ensures IsBest(Cut(q, i), q[i].End(), Neighbour(q, i, q[i].End())) <==> i <= 1 && Wrapped(q[|q| - 1].pos, q[i].End())
  {
    hide Neighbour;
    var last, r := q[i].End(), Cut(q, i);
    var n := FarNeighbour(q, i);
    assert r[if n < i then n else n - 1] == q[n];
    assert r[|r| - 1] == q[|q| - 1];
    if i <= 1 && Wrapped(q[|q| - 1].pos, last) {
      forall j | 0 <= j < |r|
        ensures r[j] == q[n] || Better(q[n].pos, r[j].pos, last)
      {
        var k := if j < i then j else j + 1;
        assert r[j] == q[k] && (k == n || q[n].pos < q[k].pos) && (k == |q| - 1 || q[k].pos < q[|q| - 1].pos);
      }
    } else if i > 1 {
      assert r[0] == q[0] && q[0].pos < q[n].pos;
      assert !Better(q[n].pos, r[0].pos, last);
    } else {
      assert q[n] != r[|r| - 1] && !Better(q[n].pos, r[|r| - 1].pos, last);
    }
  }

  /** Looking at the neighbours after a dispatch finds the best request exactly when the way is
      clear. */
  lemma DispatchBestIff(q: seq<Rq>, i: nat)
    requires Increasing(q) && i < |q|
    ensures IsBest(Cut(q, i), q[i].End(), Neighbour(q, i, q[i].End())) <==> Clear(q, i)
  {
    hide IsBest, Neighbour, Better;
    var last := q[i].End();
    if i + 1 < |q| && q[i + 1].pos < last {
      if Wrapped(q[i + 1].pos, last) {
        FarIsBestIff(q, i);
      } else if Clear(q, i) {
        InsideIsBest(q, i);
      } else {
        NotClearNotBest(q, i);
      }
    } else {
      assert i > 0 ==> q[i - 1].pos < q[i].pos;
      assert Beside(q, i, last);
      NeighbourIsBest(q, i, last);
    }
  }

  /** A request inside the one dispatched can hide a better one. */
  lemma DispatchNeedNotBeBest()
    ensures var q := [Rq(1, 0, 10), Rq(2, 5, 10), Rq(3, 11, 10)];
      Increasing(q) && !IsBest(Cut(q, 0), q[0].End(), Neighbour(q, 0, q[0].End()))
  {
    var q := [Rq(1, 0, 10), Rq(2, 5, 10), Rq(3, 11, 10)];
    DispatchBestIff(q, 0);
  }
}
