/** Which colours the requests of each epoch have, and that they agree with the barrier that ends it. */
module BarrierTint {
  import opened Options
  import opened BarrierModel
  import opened BarrierSafety
  import opened BarrierCore
  import Order = BarrierOrder
  import Runs = BarrierRuns

  ghost predicate Near(s: State, r: Rq) { r in s.queue || r in s.issued || r in s.sorted }

  predicate IsTint(r: Rq, n: int, c: bool) { Plain(r) && r.epoch == n && r.color == c }

  /** Some request queued in epoch `n` that is not a barrier has colour `c` and is not done. */
  ghost predicate Tint(s: State, n: int, c: bool) { exists r :: Near(s, r) && IsTint(r, n, c) }

  /** Requests have the colour of the barrier that ends their epoch; those of the last epoch have one in `last`. */
  ghost predicate Tinted(s: State, last: set<bool>) {
    && (forall n, c, d :: Tint(s, n, c) && Pending(s, n, d) ==> c == d)
    && (forall n, c :: Tint(s, n, c) && n == s.added ==> c in last)
  }

  lemma InitialTinted()
    ensures Tinted(INITIAL, {})
  {}

  function NextTints(s: State, last: set<bool>, e: Event): set<bool> {
    if Order.FsBarrier(e) then {} else if FsInsertion(e) then last + {s.ordcolor} else last
  }

  // Where the requests come from

  /** Everything near afterwards was near before, up to its stop flag, or is new. */
  ghost predicate From(s: State, t: State) {
    forall r :: Near(t, r) && Plain(r) ==>
      (exists r0 :: Near(s, r0) && Bare(r0) == Bare(r)) || (r.epoch == s.added && r.color == s.ordcolor)
  }

  ghost predicate OldOnly(s: State, t: State) {
    forall r :: Near(t, r) && Plain(r) ==> exists r0 :: Near(s, r0) && Bare(r0) == Bare(r)
  }

  lemma OldTints(s: State, t: State, n: int, c: bool)
    requires OldOnly(s, t) && Tint(t, n, c)
    ensures Tint(s, n, c)
  {
    hide Near;
    var r :| Near(t, r) && IsTint(r, n, c);
    var r0 :| Near(s, r0) && Bare(r0) == Bare(r);
    assert IsTint(r0, n, c);
  }

  lemma FromTints(s: State, t: State, n: int, c: bool)
    requires From(s, t) && Tint(t, n, c)
    ensures Tint(s, n, c) || (n == s.added && c == s.ordcolor)
  {
    hide Near;
    var r :| Near(t, r) && IsTint(r, n, c);
    if r0 :| Near(s, r0) && Bare(r0) == Bare(r) {
      assert IsTint(r0, n, c);
    }
  }

  lemma AddFrom(s: State, e: Event)
    requires Enabled(s, e) && Insertion(e)
    ensures From(s, Step(s, e))
    ensures !FsInsertion(e) || Order.FsBarrier(e) ==> OldOnly(s, Step(s, e))
  {
    var t := Step(s, e);
    forall r | Near(t, r) && Plain(r) && !(r.epoch == s.added && r.color == s.ordcolor && FsInsertion(e) && !Order.FsBarrier(e))
      ensures Near(s, r)
    {}
  }

  lemma MoveFrom(s: State, e: Event)
    requires Core(s) && Enabled(s, e) && (e.Dispatch? || e.Peek? || e.Fetch?)
    ensures OldOnly(s, Step(s, e))
  {
    hide Core, Allowed;
    var t := Step(s, e);
    forall r | Near(t, r) && Plain(r)
      ensures exists r0 :: Near(s, r0) && Bare(r0) == Bare(r)
    {
      if !Near(s, r) {
        assert Near(s, s.queue[0]) && Bare(s.queue[0]) == Bare(r);
      }
    }
  }

  lemma BackFrom(s: State, e: Event)
    requires Enabled(s, e) && (e.Requeue? || e.Complete?)
    requires e.Requeue? && Plain(e.r) ==> e.r in s.issued
    ensures OldOnly(s, Step(s, e))
  {
    hide CompleteSeq, CurSeq, ReqSeq, Insert, Remove, BitOf;
    var t := Step(s, e);
    RemoveKeeps(s, e.r);
    LessNear(s, e.r);
    if e.Requeue? {
      var j := if s.Active() then RequeueSlot(s, e.r, 0) else 0;
      InsertMembers(s.queue, j, Stopped(e.r));
      forall r | Near(t, r) && Plain(r)
        ensures exists r0 :: Near(s, r0) && Bare(r0) == Bare(r)
      {
        if !Near(s, r) {
          assert Near(s, e.r);
        }
      }
    } else {
      SameQueue(Remove(s, e.r), DRAIN_BIT);
      SameQueue(Drained(Remove(s, e.r)), BitOf(e.r));
      assert forall r :: Near(t, r) ==> Near(s, r);
    }
  }

  lemma LessNear(s: State, r: Rq)
    ensures Remove(s, r).issued <= s.issued
  {}

  lemma SameQueue(s: State, bits: OrdSeq)
    ensures var t := CompleteSeq(s, bits); t.queue == s.queue && t.issued == s.issued && t.sorted == s.sorted
  {}

  lemma StartFrom(s: State, e: Event)
    requires Enabled(s, e) && e.Start?
    ensures OldOnly(s, Step(s, e))
  {
    hide CompleteSeq, CurSeq, Push;
    var b := s.queue[0];
    var doPost := e.postflush && b.sectors != 0;
    var q1 := Push(doPost, Post, s.queue[1..]);
    var q2 := Push(b.sectors != 0, Bar, q1);
    var q3 := Push(e.preflush, Pre, q2);
    PushMembers(doPost, Post, s.queue[1..]);
    PushMembers(b.sectors != 0, Bar, q1);
    PushMembers(e.preflush, Pre, q2);
    SameQueue(s.(queue := q3, orig := Some(b), ordseq := IDLE.(started := true)),
              OrdSeq(false, s.issued == multiset{}, !e.preflush, b.sectors == 0, !doPost));
    assert forall r :: Near(Step(s, e), r) && Plain(r) ==> Near(s, r);
  }

  lemma StepFrom(s: State, e: Event)
    requires Core(s) && Order.Elsewhere(s) && Enabled(s, e)
    ensures From(s, Step(s, e))
    ensures !FsInsertion(e) || Order.FsBarrier(e) ==> OldOnly(s, Step(s, e))
  {
    hide Core, Step, Enabled, Near;
    if Insertion(e) {
      AddFrom(s, e);
    } else if e.Start? {
      StartFrom(s, e);
    } else if e.Requeue? || e.Complete? {
      InIssued(s, e);
      BackFrom(s, e);
    } else {
      MoveFrom(s, e);
    }
  }

  lemma InIssued(s: State, e: Event)
    requires Core(s) && Enabled(s, e)
    ensures e.Requeue? && Plain(e.r) ==> e.r in s.issued
  {
    hide Once, ProxiesOk;
  }

  // Which barriers are pending

  lemma AddPending(s: State, e: Event, n: int, c: bool)
    requires Enabled(s, e) && Insertion(e) && Pending(Step(s, e), n, c)
    ensures Pending(s, n, c) || (Order.FsBarrier(e) && n == s.added && c == s.ordcolor)
  {
    hide HasPending, Insert;
    var t := Step(s, e);
    if e.AddBack? {
      InsertLast(s.queue, t.queue[|s.queue|]);
      Order.HasPendingInsert(s.queue, |s.queue|, t.queue[|s.queue|], n, c);
    } else if e.AddFront? {
      FrontInsert(s.queue, t.queue[0]);
      Order.HasPendingInsert(s.queue, 0, t.queue[0], n, c);
    }
  }

  lemma FrontInsert(q: seq<Rq>, r: Rq)
    ensures Insert(q, 0, r) == [r] + q
  {}

  lemma MovePending(s: State, e: Event, n: int, c: bool)
    requires Core(s) && Enabled(s, e) && (e.Dispatch? || e.Peek? || e.Fetch?) && Pending(Step(s, e), n, c)
    ensures Pending(s, n, c)
  {
    hide HasPending, Insert, Allowed, Once, ProxiesOk, InStep;
    if e.Dispatch? {
      Order.HasPendingInsert(s.queue, e.slot, e.r, n, c);
    } else if e.Peek? {
      PeekPending(s.queue, n, c);
    } else {
      TailPending(s.queue, n, c);
    }
  }

  lemma BackPending(s: State, e: Event, n: int, c: bool)
    requires Core(s) && Order.Elsewhere(s) && Enabled(s, e) && e.Requeue? && Pending(Step(s, e), n, c)
    ensures Pending(s, n, c)
  {
    hide HasPending, Insert, ReqSeq, Once, ProxiesOk, InStep, Remove;
    RemoveKeeps(s, e.r);
    Order.HasPendingInsert(s.queue, if s.Active() then RequeueSlot(s, e.r, 0) else 0, Stopped(e.r), n, c);
  }

  lemma DonePending(s: State, e: Event, n: int, c: bool)
    requires Enabled(s, e) && e.Complete? && Pending(Step(s, e), n, c)
    ensures Pending(s, n, c)
  {
    hide HasPending, CurSeq, ReqSeq, CompleteSeq, BitOf, Remove;
    RemoveKeeps(s, e.r);
    FewerPending(Remove(s, e.r), DRAIN_BIT);
    FewerPending(Drained(Remove(s, e.r)), BitOf(e.r));
  }

  lemma StepPending(s: State, e: Event, n: int, c: bool)
    requires Core(s) && Order.Elsewhere(s) && Enabled(s, e) && Pending(Step(s, e), n, c)
    ensures Pending(s, n, c) || (Order.FsBarrier(e) && n == s.added && c == s.ordcolor)
  {
    hide Core, Step, Enabled, Pending;
    if Insertion(e) {
      AddPending(s, e, n, c);
    } else if e.Start? {
      StartPending(s, e, n, c);
    } else if e.Requeue? {
      BackPending(s, e, n, c);
    } else if e.Complete? {
      DonePending(s, e, n, c);
    } else {
      MovePending(s, e, n, c);
    }
  }

  lemma FewerPending(s: State, bits: OrdSeq)
    ensures var t := CompleteSeq(s, bits); t.queue == s.queue && (t.orig == s.orig || t.orig == None)
  {}

  lemma PeekPending(q: seq<Rq>, n: int, c: bool)
    requires q != []
    ensures HasPending(q[0 := Stopped(q[0])], n, c) ==> HasPending(q, n, c)
  {
    var p := q[0 := Stopped(q[0])];
    assert forall x :: 0 <= x < |q| ==> IsPending(p[x], n, c) == IsPending(q[x], n, c);
  }

  lemma TailPending(q: seq<Rq>, n: int, c: bool)
    requires q != []
    ensures HasPending(q[1..], n, c) ==> HasPending(q, n, c)
    ensures IsPending(q[0], n, c) ==> HasPending(q, n, c)
  {
    assert forall x :: 0 <= x < |q| - 1 ==> q[1..][x] == q[x + 1];
  }

  lemma PushPending(wanted: bool, r: Rq, q: seq<Rq>, n: int, c: bool)
    requires !r.Normal?
    ensures HasPending(Push(wanted, r, q), n, c) ==> HasPending(q, n, c)
  {
    hide HasPending, Insert;
    if wanted {
      FrontInsert(q, r);
      Order.HasPendingInsert(q, 0, r, n, c);
    }
  }

  lemma StartPending(s: State, e: Event, n: int, c: bool)
    requires Enabled(s, e) && e.Start? && Pending(Step(s, e), n, c)
    ensures Pending(s, n, c)
  {
    hide HasPending, CurSeq, Push, CompleteSeq;
    var b := s.queue[0];
    var doPost := e.postflush && b.sectors != 0;
    var q1 := Push(doPost, Post, s.queue[1..]);
    var q2 := Push(b.sectors != 0, Bar, q1);
    var q3 := Push(e.preflush, Pre, q2);
    TailPending(s.queue, n, c);
    PushPending(doPost, Post, s.queue[1..], n, c);
    PushPending(b.sectors != 0, Bar, q1, n, c);
    PushPending(e.preflush, Pre, q2, n, c);
    FewerPending(s.(queue := q3, orig := Some(b), ordseq := IDLE.(started := true)),
                 OrdSeq(false, s.issued == multiset{}, !e.preflush, b.sectors == 0, !doPost));
  }

  // Steps

  lemma TintFrom(s: State, n: int, c: bool)
    requires Order.Ranks(s) && Tint(s, n, c)
    ensures n <= s.added
  {
    var r :| Near(s, r) && IsTint(r, n, c);
    if r in s.queue {
      var x :| 0 <= x < |s.queue| && s.queue[x] == r;
    }
  }

  /** Every event keeps it, if a barrier comes in at the colour of all requests of its epoch. */
  lemma StepTinted(s: State, e: Event, last: set<bool>)
    requires Core(s) && Order.Ranks(s) && Tinted(s, last) && Enabled(s, e)
    requires Order.FsBarrier(e) ==> last <= {s.ordcolor}
    ensures Tinted(Step(s, e), NextTints(s, last, e))
  {
    hide Core, Step, Enabled, Tint, Pending, From, OldOnly;
    var t := Step(s, e);
    assert Order.Elsewhere(s);
    StepFrom(s, e);
    Runs.StepAdded(s, e);
    forall n, c, d | Tint(t, n, c) && Pending(t, n, d)
      ensures c == d
    {
      StepTint(s, e, n, c);
      StepPending(s, e, n, d);
      if Pending(s, n, d) {
        Order.PendingFrom(s, n, d);
      }
    }
    forall n, c | Tint(t, n, c) && n == t.added
      ensures c in NextTints(s, last, e)
    {
      StepTint(s, e, n, c);
      if Tint(s, n, c) {
        TintFrom(s, n, c);
      }
    }
  }

  lemma StepTint(s: State, e: Event, n: int, c: bool)
    requires Enabled(s, e) && From(s, Step(s, e)) && (!FsInsertion(e) || Order.FsBarrier(e) ==> OldOnly(s, Step(s, e)))
    requires Tint(Step(s, e), n, c)
    ensures Tint(s, n, c) || (FsInsertion(e) && !Order.FsBarrier(e) && n == s.added && c == s.ordcolor)
  {
    hide Step, Enabled, Tint, From, OldOnly;
    FromTints(s, Step(s, e), n, c);
    if !FsInsertion(e) || Order.FsBarrier(e) {
      OldTints(s, Step(s, e), n, c);
    }
  }

  /** So the requests before the barrier in progress have its colour, and the first after it has the other. */
  lemma TintedSided(s: State, last: set<bool>)
    requires Tinted(s, last) && Order.Ranks(s) && Order.Guarded(s)
    ensures Sided(s)
  {
    hide Blocked, Order.Placed, Waiting;
    if s.Active() {
      var b := s.orig.value;
      assert IsPending(b, s.completed, b.color) && Pending(s, s.completed, b.color);
      forall r | (r in s.queue || r in s.issued) && Plain(r) && r.epoch == s.completed
        ensures r.color == b.color
      {
        assert Near(s, r) && IsTint(r, s.completed, r.color);
        assert Tint(s, s.completed, r.color);
      }
    }
  }
}
