/** Bounds of the deadline scheduler over whole runs: how long reads can hold back writes, and how
    soon an expired request goes. */
module DeadlineRuns {
  import opened Options
  import opened DeadlineModel

  /** What can happen: a request arrives, grows at its front, or absorbs its successor, or the driver
      asks for one. */
  datatype Event =
    | Add(dir: Dir, item: Item, now: int)
    | Front(dir: Dir, item: Item, now: int)
    | Join(dir: Dir, req: nat, next: nat, now: int)
    | Ask(now: int)

  ghost predicate Enabled(s: Sched, e: Event) {
    match e
    case Add(d, item, _) => New(s, d, item.id)
    case Front(d, item, _) => InSort(s.Get(d).sort, item.id)
    case Join(d, req, next, _) => InSort(s.Get(d).sort, req) && InSort(s.Get(d).sort, next) && req != next
    case Ask(_) => true
  }

  function Step(s: Sched, t: Tunables, e: Event): Sched {
    match e
    case Add(d, item, now) => Added(s, d, item, now + t.Expire(d))
    case Front(d, item, _) => Repositioned(s, d, item)
    case Join(d, req, next, _) => Merged(s, d, req, next)
    case Ask(now) => Dispatched(s, t, now)
  }

  lemma StepInv(s: Sched, t: Tunables, e: Event)
    requires Inv(s) && Enabled(s, e)
    ensures Inv(Step(s, t, e))
    ensures !e.Ask? ==> Step(s, t, e).batching == s.batching && Step(s, t, e).starved == s.starved
  {
    hide SideBut, Added, Repositioned, Merged, Dispatched, InSort;
    match e
    case Add(d, item, now) =>
      AddedInv(s, d, item, now + t.Expire(d));
    case Front(d, item, _) =>
      RepositionedInv(s, d, item);
    case Join(d, req, next, _) =>
      MergedInv(s, d, req, next);
    case Ask(now) =>
      DispatchedInv(s, t, now);
  }

  // Starvation

  /** The length of a batch. */
  function Batch(t: Tunables): int { if t.fifoBatch > 1 then t.fifoBatch else 1 }

  /** How many more reads can go before a write. */
  function Budget(s: Sched, t: Tunables): int {
    (if s.batching < t.fifoBatch then t.fifoBatch - s.batching else 0)
    + if s.starved < t.writesStarved then Batch(t) * (t.writesStarved - s.starved) else 0
  }

  lemma Less(b: int, n: int)
    ensures b * n == b * (n - 1) + b
  {}

  lemma Grows(b: int, m: int, n: int)
    requires b >= 0 && m <= n
    ensures b * m <= b * n
  {}

  lemma BudgetBound(s: Sched, t: Tunables)
    requires t.fifoBatch >= 0 && t.writesStarved >= 0
    ensures 0 <= Budget(s, t) <= (t.writesStarved + 1) * Batch(t)
  {
    var b, n := Batch(t), t.writesStarved;
    Grows(b, 0, n - s.starved + if s.starved < n then 0 else s.starved);
    Grows(b, n - s.starved, n);
    Less(b, n + 1);
    assert (n + 1) * b == b * (n + 1);
  }

  /** A read that goes while writes wait costs one. */
  lemma ReadCosts(s: Sched, t: Tunables, now: int)
    requires s.write.fifo != [] && t.fifoBatch >= 0 && t.writesStarved >= 0
    requires Choose(s, t, now).Nothing? || Choose(s, t, now).dir == Read
    ensures Budget(Dispatched(s, t, now), t) < Budget(s, t)
  {
    var c := Choose(s, t, now);
    MovedCounts(s, t, now);
    if c.Select? {
      Less(Batch(t), t.writesStarved - s.starved);
    }
  }

  lemma MovedCounts(s: Sched, t: Tunables, now: int)
    requires s.write.fifo != []
    ensures var c := Choose(s, t, now); var u := Dispatched(s, t, now);
      && !c.Nothing?
      && u.batching == (if c.Continue? then s.batching + 1 else 1)
      && u.starved == (if c.Continue? then s.starved else if c.dir.Write? then 0 else s.starved + 1)
  {
    hide Removed, Latter;
  }

  /** A run in which writes are always waiting and every request taken is a read. */
  ghost predicate Starving(s: Sched, t: Tunables, es: seq<Event>)
    decreases |es|
  {
    es == [] || (
      && Enabled(s, es[0])
      && (es[0].Ask? ==> s.write.fifo != [] && (Choose(s, t, es[0].now).Nothing? || Choose(s, t, es[0].now).dir == Read))
      && Starving(Step(s, t, es[0]), t, es[1..]))
  }

  function Asks(es: seq<Event>): nat {
    if es == [] then 0 else (if es[0].Ask? then 1 else 0) + Asks(es[1..])
  }

  /** While writes wait, at most this many reads go before one of them. */
  lemma {:induction false} StarvationBound(s: Sched, t: Tunables, es: seq<Event>)
    requires Inv(s) && t.fifoBatch >= 0 && t.writesStarved >= 0 && Starving(s, t, es)
    ensures Asks(es) <= Budget(s, t) <= (t.writesStarved + 1) * Batch(t)
    decreases |es|
  {
    hide Inv, Step, Budget, Choose;
    BudgetBound(s, t);
    if es != [] {
      StepInv(s, t, es[0]);
      StarvationBound(Step(s, t, es[0]), t, es[1..]);
      if es[0].Ask? {
        ReadCosts(s, t, es[0].now);
        AskStep(s, t, es[0]);
      } else {
        SameBudget(s, Step(s, t, es[0]), t);
      }
    }
  }

  lemma AskStep(s: Sched, t: Tunables, e: Event)
    requires e.Ask?
    ensures Step(s, t, e) == Dispatched(s, t, e.now)
  {}

  lemma SameBudget(s: Sched, u: Sched, t: Tunables)
    requires u.batching == s.batching && u.starved == s.starved
    ensures Budget(u, t) == Budget(s, t)
  {}

  // Expiry

  ghost predicate ByDeadline(fifo: seq<Wait>) {
    forall i, j :: 0 <= i < j < |fifo| ==> fifo[i].deadline <= fifo[j].deadline
  }

  /** No deadline is later than the one a request arriving now would get. */
  ghost predicate Soon(fifo: seq<Wait>, latest: int) {
    forall i :: 0 <= i < |fifo| ==> fifo[i].deadline <= latest
  }

  lemma CutOrder(fifo: seq<Wait>, k: nat, latest: int)
    requires ByDeadline(fifo) && Soon(fifo, latest)
    ensures ByDeadline(Cut(fifo, k)) && Soon(Cut(fifo, k), latest)
  {
    hide Cut;
    if k < |fifo| {
      CutKeeps(fifo, k);
    } else {
      NotCut(fifo, k);
    }
  }

  lemma AppendOrder(fifo: seq<Wait>, w: Wait, latest: int)
    requires ByDeadline(fifo) && Soon(fifo, latest) && w.deadline == latest
    ensures ByDeadline(fifo + [w]) && Soon(fifo + [w], latest)
  {
    assert forall i :: 0 <= i < |fifo| ==> (fifo + [w])[i] == fifo[i];
  }

  lemma MergeOrder(fifo: seq<Wait>, req: nat, next: nat, latest: int)
    requires ByDeadline(fifo) && Soon(fifo, latest)
    ensures ByDeadline(MergedFifo(fifo, req, next)) && Soon(MergedFifo(fifo, req, next), latest)
  {
    hide Cut, Turn;
    var i, j := Turn(fifo, req), Turn(fifo, next);
    if i < |fifo| && j < |fifo| && fifo[j].deadline < fifo[i].deadline {
      var u := fifo[j := Wait(req, fifo[j].deadline)];
      assert forall k :: 0 <= k < |u| ==> u[k].deadline == fifo[k].deadline;
      assert ByDeadline(u) && Soon(u, latest);
      CutOrder(u, i, latest);
    } else {
      CutOrder(fifo, j, latest);
    }
  }

  /** The deadline list of direction `d` after an event. */
  function FifoAfter(s: Sched, t: Tunables, e: Event, d: Dir): seq<Wait> {
    var fifo := s.Get(d).fifo;
    match e
    case Add(dir, item, now) =>
      if dir != d then fifo
      else
        var alias := Alias(s.Get(d).sort, item.pos);
        (if alias.Some? then Cut(fifo, Turn(fifo, alias.value)) else fifo) + [Wait(item.id, now + t.Expire(d))]
    case Front(dir, item, _) =>
      var alias := Alias(Cut(s.Get(d).sort, Place(s.Get(d).sort, item.id)), item.pos);
      if dir != d || alias.None? then fifo else Cut(fifo, Turn(fifo, alias.value))
    case Join(dir, req, next, _) => if dir != d then fifo else MergedFifo(fifo, req, next)
    case Ask(now) =>
      var c := Choose(s, t, now);
      if c.Nothing? || c.dir != d then fifo else Cut(fifo, Turn(fifo, c.id))
  }

  lemma FifoStep(s: Sched, t: Tunables, e: Event, d: Dir)
    requires Inv(s) && Enabled(s, e)
    ensures Step(s, t, e).Get(d).fifo == FifoAfter(s, t, e, d)
  {
    hide SideBut, Added, Repositioned, Merged, Dispatched, InSort, Turn, Cut, Alias, Place, Choose, MergedFifo;
    match e
    case Add(dir, item, now) => AddedInv(s, dir, item, now + t.Expire(dir));
    case Front(dir, item, _) => RepositionedInv(s, dir, item);
    case Join(dir, req, next, _) => MergedInv(s, dir, req, next);
    case Ask(now) => DispatchedInv(s, t, now);
  }

  /** The deadline lists stay in order of deadline, through arrivals and merges. */
  lemma OrderKept(s: Sched, t: Tunables, e: Event, d: Dir, clock: int)
    requires Inv(s) && Enabled(s, e) && clock <= e.now
    requires ByDeadline(s.Get(d).fifo) && Soon(s.Get(d).fifo, clock + t.Expire(d))
    ensures ByDeadline(Step(s, t, e).Get(d).fifo) && Soon(Step(s, t, e).Get(d).fifo, e.now + t.Expire(d))
  {
    hide Inv, Step, Turn, Cut, Alias, Place, Choose, MergedFifo, InSort, InFifo;
    FifoStep(s, t, e, d);
    var fifo := s.Get(d).fifo;
    var latest := e.now + t.Expire(d);
    assert Soon(fifo, latest);
    match e
    case Add(dir, item, now) =>
      var alias := Alias(s.Get(d).sort, item.pos);
      if alias.Some? {
        CutOrder(fifo, Turn(fifo, alias.value), latest);
      }
      AppendOrder(if alias.Some? then Cut(fifo, Turn(fifo, alias.value)) else fifo, Wait(item.id, latest), latest);
    case Front(dir, item, _) =>
      var alias := Alias(Cut(s.Get(d).sort, Place(s.Get(d).sort, item.id)), item.pos);
      if alias.Some? {
        CutOrder(fifo, Turn(fifo, alias.value), latest);
      }
    case Join(dir, req, next, _) => MergeOrder(fifo, req, next, latest);
    case Ask(now) =>
      var c := Choose(s, t, now);
      if !c.Nothing? {
        CutOrder(fifo, Turn(fifo, c.id), latest);
      }
  }

  lemma AppendTurn(fifo: seq<Wait>, w: Wait, id: nat)
    requires Turn(fifo, id) < |fifo|
    ensures Turn(fifo + [w], id) == Turn(fifo, id)
  {
    hide Turn;
    var i := Turn(fifo, id);
    assert (fifo + [w])[i] == fifo[i];
    TurnIs(fifo + [w], id, i);
  }

  /** A merge keeps the place and the deadline of a request, or improves both. */
  lemma MergeTurn(fifo: seq<Wait>, req: nat, next: nat, id: nat)
    requires ByDeadline(fifo) && DistinctWaits(fifo) && req != next && id != next
    requires Turn(fifo, req) < |fifo| && Turn(fifo, next) < |fifo| && Turn(fifo, id) < |fifo|
    ensures var r := MergedFifo(fifo, req, next);
      Turn(r, id) <= Turn(fifo, id) && Turn(r, id) < |r| && r[Turn(r, id)].deadline <= fifo[Turn(fifo, id)].deadline
  {
    hide Turn, Cut;
    var i, j, k := Turn(fifo, req), Turn(fifo, next), Turn(fifo, id);
    if fifo[j].deadline < fifo[i].deadline {
      assert j < i;
      var u := fifo[j := Wait(req, fifo[j].deadline)];
      if id == req {
        var r := Cut(u, i);
        CutKeeps(u, i);
        assert r[j] == u[j];
        TurnIs(r, id, j);
      } else {
        TurnIs(u, id, k);
        CutTurned(u, i, id);
      }
    } else {
      CutTurned(fifo, j, id);
    }
  }

  lemma Here(fifo: seq<Wait>, id: nat)
    ensures InFifo(fifo, id) <==> Turn(fifo, id) < |fifo|
  {
    if Turn(fifo, id) < |fifo| {
      assert fifo[Turn(fifo, id)].id == id;
    }
  }

  lemma CutOther(fifo: seq<Wait>, other: nat, id: nat)
    requires DistinctWaits(fifo) && Turn(fifo, id) < |fifo| && other != id
    ensures var r := Cut(fifo, Turn(fifo, other)); var i := Turn(fifo, id);
      && Turn(r, id) == (if Turn(fifo, other) < i then i - 1 else i) < |r| && r[Turn(r, id)] == fifo[i]
  {
    hide Turn, Cut;
    CutTurned(fifo, Turn(fifo, other), id);
  }

  lemma CutSelf(fifo: seq<Wait>, other: nat, id: nat)
    requires DistinctWaits(fifo) && InFifo(Cut(fifo, Turn(fifo, other)), id)
    ensures other != id
  {
    hide Turn, Cut;
    CutFifo(fifo, other);
  }

  lemma AddTurn(fifo: seq<Wait>, alias: Option<nat>, w: Wait, id: nat)
    requires DistinctWaits(fifo) && Turn(fifo, id) < |fifo| && w.id != id
    requires var r := (if alias.Some? then Cut(fifo, Turn(fifo, alias.value)) else fifo) + [w]; Turn(r, id) < |r|
    ensures var r := (if alias.Some? then Cut(fifo, Turn(fifo, alias.value)) else fifo) + [w];
      Turn(r, id) <= Turn(fifo, id) && r[Turn(r, id)] == fifo[Turn(fifo, id)]
  {
    hide Turn, Cut;
    var c := if alias.Some? then Cut(fifo, Turn(fifo, alias.value)) else fifo;
    if alias.Some? {
      assert InFifo(c, id) by { assert c[Turn(c + [w], id)].id == id; }
      CutSelf(fifo, alias.value, id);
      CutOther(fifo, alias.value, id);
    }
    AppendTurn(c, w, id);
  }

  lemma JoinTurn(fifo: seq<Wait>, req: nat, next: nat, id: nat)
    requires ByDeadline(fifo) && DistinctWaits(fifo) && req != next && InFifo(fifo, req) && InFifo(fifo, next)
    requires Turn(fifo, id) < |fifo| && Turn(MergedFifo(fifo, req, next), id) < |MergedFifo(fifo, req, next)|
    ensures var r := MergedFifo(fifo, req, next);
      Turn(r, id) <= Turn(fifo, id) && r[Turn(r, id)].deadline <= fifo[Turn(fifo, id)].deadline
  {
    hide Turn, MergedFifo;
    MergedFifoOk(fifo, req, next);
    Here(MergedFifo(fifo, req, next), id);
    Here(fifo, req);
    Here(fifo, next);
    MergeTurn(fifo, req, next, id);
  }

  /** With an overdue request in the list, a new batch starts at its head. */
  lemma HeadFirst(side: Side, now: int, id: nat)
    requires ByDeadline(side.fifo) && Turn(side.fifo, id) < |side.fifo| && side.fifo[Turn(side.fifo, id)].deadline < now
    ensures First(side, now) == side.fifo[0].id && Turn(side.fifo, side.fifo[0].id) == 0
    ensures side.fifo[0].id != id ==> Turn(side.fifo, id) > 0
  {
    assert Turn(side.fifo, id) == 0 || side.fifo[0].deadline <= side.fifo[Turn(side.fifo, id)].deadline;
  }

  /** An overdue request's turn: it never gets later, and a new batch in its direction brings it
      nearer or takes it. */
  lemma TurnComes(s: Sched, t: Tunables, e: Event, d: Dir, id: nat)
    requires Inv(s) && Enabled(s, e) && ByDeadline(s.Get(d).fifo)
    requires Turn(s.Get(d).fifo, id) < |s.Get(d).fifo| && s.Get(d).fifo[Turn(s.Get(d).fifo, id)].deadline < e.now
    requires var f := Step(s, t, e).Get(d).fifo; Turn(f, id) < |f|
    ensures var f, f' := s.Get(d).fifo, Step(s, t, e).Get(d).fifo;
      && Turn(f', id) <= Turn(f, id) && f'[Turn(f', id)].deadline <= f[Turn(f, id)].deadline
      && (e.Ask? && Choose(s, t, e.now).Select? && Choose(s, t, e.now).dir == d ==> Turn(f', id) < Turn(f, id))
  {
    hide Step, Turn, Cut, Alias, Place, MergedFifo, InSort, First, Increasing, DistinctItems;
    FifoStep(s, t, e, d);
    var fifo := s.Get(d).fifo;
    var fifo' := Step(s, t, e).Get(d).fifo;
    Here(fifo, id);
    Here(fifo', id);
    match e
    case Add(dir, item, now) =>
      if dir == d {
        AddTurn(fifo, Alias(s.Get(d).sort, item.pos), Wait(item.id, now + t.Expire(d)), id);
      }
    case Front(dir, item, _) =>
      var alias := Alias(Cut(s.Get(d).sort, Place(s.Get(d).sort, item.id)), item.pos);
      if dir == d && alias.Some? {
        CutSelf(fifo, alias.value, id);
        CutOther(fifo, alias.value, id);
      }
    case Join(dir, req, next, _) =>
      if dir == d {
        JoinTurn(fifo, req, next, id);
      }
    case Ask(now) =>
      var c := Choose(s, t, now);
      if !c.Nothing? && c.dir == d {
        CutSelf(fifo, c.id, id);
        CutOther(fifo, c.id, id);
        if c.Select? {
          HeadFirst(s.Get(d), now, id);
        }
      }
  }

  /** A run at the start of which request `id` is overdue, and throughout which it stays queued. */
  ghost predicate Overdue(s: Sched, t: Tunables, es: seq<Event>, d: Dir, id: nat, clock: int)
    decreases |es|
  {
    && Turn(s.Get(d).fifo, id) < |s.Get(d).fifo| && s.Get(d).fifo[Turn(s.Get(d).fifo, id)].deadline < clock
    && (es == [] || (
      && Enabled(s, es[0]) && clock <= es[0].now
      && Overdue(Step(s, t, es[0]), t, es[1..], d, id, es[0].now)))
  }

  /** The new batches in direction `d`. */
  function Selections(s: Sched, t: Tunables, es: seq<Event>, d: Dir): nat
    decreases |es|
  {
    if es == [] then 0
    else
      (if es[0].Ask? && Choose(s, t, es[0].now).Select? && Choose(s, t, es[0].now).dir == d then 1 else 0)
      + Selections(Step(s, t, es[0]), t, es[1..], d)
  }

  /** An overdue request with `k` others ahead outlasts at most `k` new batches of its direction. */
  lemma {:induction false} ExpiryBound(s: Sched, t: Tunables, es: seq<Event>, d: Dir, id: nat, clock: int)
    requires Inv(s) && ByDeadline(s.Get(d).fifo) && Soon(s.Get(d).fifo, clock + t.Expire(d))
    requires Overdue(s, t, es, d, id, clock)
    ensures Selections(s, t, es, d) <= Turn(s.Get(d).fifo, id)
    decreases |es|
  {
    hide Inv, Step, Turn, Choose, ByDeadline, Soon, Enabled;
    if es != [] {
      StepInv(s, t, es[0]);
      OrderKept(s, t, es[0], d, clock);
      ExpiryBound(Step(s, t, es[0]), t, es[1..], d, id, es[0].now);
      TurnComes(s, t, es[0], d, id);
    }
  }
}
