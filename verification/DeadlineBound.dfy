/** Within how many calls for a dispatch an overdue request goes. */
module DeadlineBound {
  import opened Options
  import opened DeadlineModel
  import opened DeadlineRuns

  lemma Drop(k: nat, m: nat, w: int)
    requires k < m && w >= 0
    ensures k * w + w <= m * w
  {
    Grows(w, k + 1, m);
    assert (k + 1) * w == k * w + w;
  }

  lemma Keep(k: nat, m: nat, w: int)
    requires k <= m && w >= 0
    ensures 0 <= k * w <= m * w
  {
    Grows(w, k, m);
    Grows(w, 0, k);
  }

  /** What a dispatch does to the counters, when something waits. */
  lemma Counters(s: Sched, t: Tunables, now: int)
    requires Inv(s) && (s.read.fifo != [] || s.write.fifo != [])
    ensures var c := Choose(s, t, now); var u := Dispatched(s, t, now);
      && !c.Nothing?
      && u.batching == (if c.Continue? then s.batching + 1 else 1)
      && u.starved == (if c.Continue? then s.starved else if c.dir.Write? then 0 else if s.write.fifo != [] then s.starved + 1 else s.starved)
      && (c.Continue? ==> s.batching < t.fifoBatch)
      && (c.Select? ==> Turned(s, t) == Some(c.dir))
  {
    hide Removed, Latter, SideBut;
    ChosenIsQueued(s, t, now);
  }

  // Writes

  /** Every call costs one of the budget, until a new batch of writes fills it up. */
  lemma WriteCosts(s: Sched, t: Tunables, now: int)
    requires Inv(s) && s.write.fifo != [] && t.fifoBatch >= 0 && t.writesStarved >= 0
    ensures var c := Choose(s, t, now); var u := Dispatched(s, t, now);
      if c.Select? && c.dir.Write? then Budget(u, t) < (t.writesStarved + 1) * Batch(t) else Budget(u, t) < Budget(s, t)
  {
    hide Choose, Dispatched, Inv;
    Counters(s, t, now);
    var c := Choose(s, t, now);
    if c.Select? && c.dir.Write? {
      assert (t.writesStarved + 1) * Batch(t) == Batch(t) * t.writesStarved + Batch(t);
      Grows(Batch(t), 0, t.writesStarved);
    } else if c.Select? {
      Less(Batch(t), t.writesStarved - s.starved);
    }
  }

  /** An overdue write costs at most the budget, and as much again for every write ahead of it. */
  lemma {:induction false} WriteGoesWithin(s: Sched, t: Tunables, es: seq<Event>, id: nat, clock: int)
    requires Inv(s) && ByDeadline(s.write.fifo) && Soon(s.write.fifo, clock + t.writeExpire)
    requires t.fifoBatch >= 0 && t.writesStarved >= 0 && Overdue(s, t, es, Write, id, clock)
    ensures Asks(es) <= Budget(s, t) + Turn(s.write.fifo, id) * ((t.writesStarved + 1) * Batch(t))
    decreases |es|
  {
    hide Inv, Step, Turn, Choose, ByDeadline, Soon, Enabled, Budget;
    var w, k := (t.writesStarved + 1) * Batch(t), Turn(s.write.fifo, id);
    BudgetBound(s, t);
    Keep(0, k, w);
    if es != [] {
      var e, u := es[0], Step(s, t, es[0]);
      StepInv(s, t, e);
      OrderKept(s, t, e, Write, clock);
      WriteGoesWithin(u, t, es[1..], id, e.now);
      TurnComes(s, t, e, Write, id);
      var k' := Turn(u.write.fifo, id);
      Keep(k', k, w);
      if e.Ask? {
        AskStep(s, t, e);
        WriteCosts(s, t, e.now);
        if Choose(s, t, e.now).Select? && Choose(s, t, e.now).dir.Write? {
          Drop(k', k, w);
        }
      } else {
        SameBudget(s, u, t);
      }
    }
  }

  /** An overdue write with `k` writes ahead outlasts at most (k + 1) * (writes_starved + 1) * max(1, fifo_batch)
      calls. */
  lemma WriteBound(s: Sched, t: Tunables, es: seq<Event>, id: nat, clock: int)
    requires Inv(s) && ByDeadline(s.write.fifo) && Soon(s.write.fifo, clock + t.writeExpire)
    requires t.fifoBatch >= 0 && t.writesStarved >= 0 && Overdue(s, t, es, Write, id, clock)
    ensures Asks(es) <= (Turn(s.write.fifo, id) + 1) * ((t.writesStarved + 1) * Batch(t))
  {
    hide Inv, Step, Turn, ByDeadline, Soon, Budget, Overdue;
    WriteGoesWithin(s, t, es, id, clock);
    BudgetBound(s, t);
    var k, w := Turn(s.write.fifo, id), (t.writesStarved + 1) * Batch(t);
    assert (k + 1) * w == k * w + w;
  }

  // Reads

  /** How many more calls can go by before a new batch of reads. */
  function ReadBudget(s: Sched, t: Tunables): int {
    (if s.batching < t.fifoBatch then t.fifoBatch - s.batching else 0) + if s.starved >= t.writesStarved then Batch(t) else 0
  }

  lemma ReadBudgetBound(s: Sched, t: Tunables)
    requires t.fifoBatch >= 0
    ensures 0 <= ReadBudget(s, t) <= 2 * Batch(t)
  {}

  /** If writes have to wait at least once, there is at most one batch of writes before the next one of reads. */
  lemma ReadCalls(s: Sched, t: Tunables, now: int)
    requires Inv(s) && s.read.fifo != [] && t.fifoBatch >= 0 && t.writesStarved >= 1
    ensures var c := Choose(s, t, now); var u := Dispatched(s, t, now);
      if c.Select? && c.dir.Read? then ReadBudget(u, t) < 2 * Batch(t) else ReadBudget(u, t) < ReadBudget(s, t)
  {
    hide Choose, Dispatched, Inv;
    Counters(s, t, now);
  }

  /** An overdue read costs at most the budget, and two batches more for every read ahead of it. */
  lemma {:induction false} ReadGoesWithin(s: Sched, t: Tunables, es: seq<Event>, id: nat, clock: int)
    requires Inv(s) && ByDeadline(s.read.fifo) && Soon(s.read.fifo, clock + t.readExpire)
    requires t.fifoBatch >= 0 && t.writesStarved >= 1 && Overdue(s, t, es, Read, id, clock)
    ensures Asks(es) <= ReadBudget(s, t) + Turn(s.read.fifo, id) * (2 * Batch(t))
    decreases |es|
  {
    hide Inv, Step, Turn, Choose, ByDeadline, Soon, Enabled, ReadBudget;
    var w, k := 2 * Batch(t), Turn(s.read.fifo, id);
    ReadBudgetBound(s, t);
    Keep(0, k, w);
    if es != [] {
      var e, u := es[0], Step(s, t, es[0]);
      StepInv(s, t, e);
      OrderKept(s, t, e, Read, clock);
      ReadGoesWithin(u, t, es[1..], id, e.now);
      TurnComes(s, t, e, Read, id);
      var k' := Turn(u.read.fifo, id);
      Keep(k', k, w);
      if e.Ask? {
        AskStep(s, t, e);
        ReadCalls(s, t, e.now);
        if Choose(s, t, e.now).Select? && Choose(s, t, e.now).dir.Read? {
          Drop(k', k, w);
        }
      } else {
        SameReadBudget(s, u, t);
      }
    }
  }

  lemma SameReadBudget(s: Sched, u: Sched, t: Tunables)
    requires u.batching == s.batching && u.starved == s.starved
    ensures ReadBudget(u, t) == ReadBudget(s, t)
  {}

  /** An overdue read with `k` reads ahead outlasts at most 2 * (k + 1) * max(1, fifo_batch) calls. */
  ghost predicate ReadsGo(t: Tunables) {
    forall s, es, id: nat, clock |
      Inv(s) && ByDeadline(s.read.fifo) && Soon(s.read.fifo, clock + t.readExpire) && Overdue(s, t, es, Read, id, clock) ::
      Asks(es) <= (Turn(s.read.fifo, id) + 1) * (2 * Batch(t))
  }

  // Reads with writes_starved at 0

  function Asking(n: nat, now: int): (es: seq<Event>)
    ensures |es| == n
  {
    if n == 0 then [] else [Ask(now)] + Asking(n - 1, now)
  }

  /** While writes are queued, they go first. */
  lemma WriteGoes(s: Sched, t: Tunables, now: int)
    requires Inv(s) && t.writesStarved <= 0 && s.read.next.None? && s.read.fifo != [] && s.write.fifo != []
    ensures var u := Dispatched(s, t, now);
      Inv(u) && u.read.next.None? && u.read.fifo == s.read.fifo && |u.write.fifo| == |s.write.fifo| - 1
  {
    hide Inv, InSort, InFifo, Turn, Cut, Latter, Removed, First;
    DispatchedInv(s, t, now);
    ChosenIsQueued(s, t, now);
    var c := Choose(s, t, now);
    assert c.dir == Write;
    Here(s.write.fifo, c.id);
    CutKeeps(s.write.fifo, Turn(s.write.fifo, c.id));
  }

  lemma {:induction false} WritesGoFirst(s: Sched, t: Tunables, n: nat, id: nat, now: int)
    requires Inv(s) && t.writesStarved <= 0 && s.read.next.None? && |s.write.fifo| >= n
    requires Turn(s.read.fifo, id) < |s.read.fifo| && s.read.fifo[Turn(s.read.fifo, id)].deadline < now
    ensures Overdue(s, t, Asking(n, now), Read, id, now) && Asks(Asking(n, now)) == n
    decreases n
  {
    hide Inv, Turn, Dispatched;
    if n > 0 {
      WriteGoes(s, t, now);
      WritesGoFirst(Dispatched(s, t, now), t, n - 1, id, now);
      assert Asking(n, now)[1..] == Asking(n - 1, now) && Asking(n, now)[0] == Ask(now);
    }
  }

  /** One read and `n` writes. */
  function Crowd(n: nat): Sched {
    Sched(Side([Item(0, 0)], [Wait(0, 0)], None), Side(seq(n, (i: nat) => Item(i + 1, i)), seq(n, (i: nat) => Wait(i + 1, 0)), None), 0, 0)
  }

  lemma CrowdInv(n: nat)
    ensures Inv(Crowd(n)) && ByDeadline(Crowd(n).read.fifo) && Turn(Crowd(n).read.fifo, 0) == 0
  {
    var w := Crowd(n).write;
    forall id: nat
      ensures InSort(w.sort, id) <==> InFifo(w.fifo, id)
    {
      if InSort(w.sort, id) {
        var i :| 0 <= i < |w.sort| && w.sort[i].id == id;
        assert w.fifo[i].id == id;
      }
      if InFifo(w.fifo, id) {
        var i :| 0 <= i < |w.fifo| && w.fifo[i].id == id;
        assert w.sort[i].id == id;
      }
    }
    var r := Crowd(n).read;
    assert forall id: nat :: InSort(r.sort, id) <==> id == 0 by { assert r.sort[0].id == 0; }
    assert forall id: nat :: InFifo(r.fifo, id) <==> id == 0 by { assert r.fifo[0].id == 0; }
  }

  /** Then an overdue read, with none ahead, can outlast any number of calls. */
  lemma ReadsCanWait(t: Tunables, n: nat) returns (s: Sched, es: seq<Event>, id: nat, clock: int)
    requires t.writesStarved <= 0
    ensures Inv(s) && ByDeadline(s.read.fifo) && Soon(s.read.fifo, clock + t.readExpire) && Overdue(s, t, es, Read, id, clock)
    ensures Turn(s.read.fifo, id) == 0 && Asks(es) == n
  {
    hide Inv, Overdue, Asks, Asking;
    s, id, clock := Crowd(n), 0, if t.readExpire < 0 then 1 - t.readExpire else 1;
    CrowdInv(n);
    es := Asking(n, clock);
    WritesGoFirst(s, t, n, id, clock);
  }

  /** Overdue reads go in time exactly if writes have to wait at least once. */
  lemma ReadsGoIff(t: Tunables)
    requires t.fifoBatch >= 0 && t.writesStarved >= 0
    ensures ReadsGo(t) <==> t.writesStarved >= 1
  {
    hide Inv, Overdue, Asks, ByDeadline, Soon, Turn;
    if t.writesStarved >= 1 {
      forall s, es, id: nat, clock |
        Inv(s) && ByDeadline(s.read.fifo) && Soon(s.read.fifo, clock + t.readExpire) && Overdue(s, t, es, Read, id, clock)
        ensures Asks(es) <= (Turn(s.read.fifo, id) + 1) * (2 * Batch(t))
      {
        ReadGoesWithin(s, t, es, id, clock);
        ReadBudgetBound(s, t);
        var k, w := Turn(s.read.fifo, id), 2 * Batch(t);
        assert (k + 1) * w == k * w + w;
      }
    } else {
      var s, es, id, clock := ReadsCanWait(t, 2 * Batch(t) + 1);
      assert (Turn(s.read.fifo, id) + 1) * (2 * Batch(t)) == 2 * Batch(t);
    }
  }
}
