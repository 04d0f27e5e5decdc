/** Requests queued before a barrier, whatever the colours: one that comes back at the other colour is stranded
    behind the barrier's steps, and none is with the driver while they are under way. */
module BarrierStrand {
  import opened Options
  import opened BarrierModel
  import opened BarrierSafety
  import opened BarrierCore

  /** A file system request of the barrier's colour, queued before it. */
  predicate Own(b: Rq, r: Rq) {
    b.Normal? && r.Normal? && r.fs && r.epoch <= b.epoch && r.color == b.color
  }

  /** Behind a barrier there is none of these. */
  ghost predicate Clear(q: seq<Rq>) {
    forall x, y :: 0 <= x < y < |q| && q[x].Barrier() ==> !Own(q[x], q[y])
  }

  /** While the barrier waits for draining they are at the front, with a stop flag. */
  ghost predicate Fronted(q: seq<Rq>, orig: Option<Rq>, b: Rq) {
    forall y :: 0 <= y < |q| && Own(b, q[y]) ==> q[y].stop && forall x :: 0 <= x < y ==> ReqSeq(orig, q[x]) == DRAIN
  }

  ghost predicate NoOwn(q: seq<Rq>, b: Rq) { forall y :: 0 <= y < |q| ==> !Own(b, q[y]) }

  /** Where they are while a barrier is in progress; after the drain none is in the queue, and no file system
      request queued before the barrier is with the driver. */
  ghost predicate Fenced(s: State) {
    s.Active() ==>
      && s.orig.value.Normal? && s.orig.value.epoch < s.added
      && Fronted(s.queue, s.orig, s.orig.value)
      && (s.ordseq.drain ==>
        NoOwn(s.queue, s.orig.value) && forall r :: r in s.issued && r.Normal? ==> Later(r, s.orig.value.epoch))
  }

  predicate InTime(r: Rq, added: nat) { r.Normal? && r.fs ==> r.epoch <= added && (r.barrier ==> r.epoch < added) }

  ghost predicate Dated(s: State) {
    && (forall x :: 0 <= x < |s.queue| ==> InTime(s.queue[x], s.added))
    && (forall r :: r in s.issued ==> InTime(r, s.added))
    && (forall r :: r in s.sorted ==> Plain(r) && r.epoch == s.added)
  }

  ghost predicate Strands(s: State) { Clear(s.queue) && Fenced(s) && Dated(s) }

  lemma InitialStrands()
    ensures Strands(INITIAL)
  {}

  // The queue

  lemma ClearInsert(q: seq<Rq>, j: nat, r: Rq)
    requires Clear(q) && j <= |q| && (r.Barrier() ==> forall y :: j <= y < |q| ==> !Own(r, q[y]))
    requires forall x :: 0 <= x < j && q[x].Barrier() ==> !Own(q[x], r)
    ensures Clear(Insert(q, j, r))
  {
    var p := Insert(q, j, r);
    forall x, y | 0 <= x < y < |p| && p[x].Barrier()
      ensures !Own(p[x], p[y])
    {
      var x' := if x < j then x else x - 1;
      var y' := if y < j then y else y - 1;
      if y == j {
        assert p[x] == q[x];
      } else {
        assert p[y] == q[y'] && (x != j ==> p[x] == q[x']);
      }
    }
  }

  lemma ClearTail(q: seq<Rq>)
    requires Clear(q) && q != []
    ensures Clear(q[1..])
  {
    forall x, y | 0 <= x < y < |q| - 1 && q[1..][x].Barrier()
      ensures !Own(q[1..][x], q[1..][y])
    {
      assert q[1..][x] == q[x + 1] && q[1..][y] == q[y + 1];
    }
  }

  lemma FrontedInsert(q: seq<Rq>, j: nat, r: Rq, orig: Option<Rq>, b: Rq)
    requires Fronted(q, orig, b) && j <= |q|
    requires ReqSeq(orig, r) == DRAIN || forall y :: j <= y < |q| ==> !Own(b, q[y])
    requires Own(b, r) ==> j == 0 && r.stop
    ensures Fronted(Insert(q, j, r), orig, b)
  {
    var p := Insert(q, j, r);
    assert forall x :: 0 <= x < |p| && x != j ==> p[x] == q[if x < j then x else x - 1];
    assert p[j] == r;
  }

  lemma NoOwnInsert(q: seq<Rq>, j: nat, r: Rq, b: Rq)
    requires NoOwn(q, b) && j <= |q| && !Own(b, r)
    ensures NoOwn(Insert(q, j, r), b)
  {
    var p := Insert(q, j, r);
    assert forall x :: 0 <= x < |p| && x != j ==> p[x] == q[if x < j then x else x - 1];
  }

  /** What a request needs to be put into the queue. */
  lemma InsertStrands(s: State, t: State, j: nat, r: Rq)
    requires Strands(s) && j <= |s.queue| && t == s.(queue := Insert(s.queue, j, r), sorted := t.sorted, issued := t.issued,
      special := t.special, ordcolor := t.ordcolor, added := t.added)
    requires Dated(t) && t.added >= s.added && t.issued <= s.issued && (r.Barrier() ==> forall y :: j <= y < |s.queue| ==> !Own(r, s.queue[y]))
    requires forall x :: 0 <= x < j && s.queue[x].Barrier() ==> !Own(s.queue[x], r)
    requires s.Active() ==>
      && (Own(s.orig.value, r) ==> j == 0 && r.stop && !s.ordseq.drain)
      && (ReqSeq(s.orig, r) == DRAIN || forall y :: j <= y < |s.queue| ==> !Own(s.orig.value, s.queue[y]))
    ensures Strands(t)
  {
    hide Clear, Fronted, NoOwn, Dated, Insert, ReqSeq, Own;
    ClearInsert(s.queue, j, r);
    if s.Active() {
      FrontedInsert(s.queue, j, r, s.orig, s.orig.value);
      if s.ordseq.drain {
        NoOwnInsert(s.queue, j, r, s.orig.value);
      }
    }
  }

  lemma DatedInsert(s: State, t: State, j: nat, r: Rq)
    requires Dated(s) && j <= |s.queue| && t.queue == Insert(s.queue, j, r) && InTime(r, t.added) && t.added >= s.added
    requires t.issued <= s.issued && (forall x :: x in t.sorted ==> Plain(x) && x.epoch == t.added)
    ensures Dated(t)
  {
    hide InTime;
    var p := t.queue;
    forall x | 0 <= x < |p|
      ensures InTime(p[x], t.added)
    {
      if x != j {
        assert p[x] == s.queue[if x < j then x else x - 1];
        Stays(p[x], s.added, t.added);
      }
    }
    forall x | x in t.issued
      ensures InTime(x, t.added)
    {
      Stays(x, s.added, t.added);
    }
  }

  lemma Stays(r: Rq, m: nat, n: nat)
    requires InTime(r, m) && m <= n
    ensures InTime(r, n)
  {}

  // The events

  lemma AddSortedStrands(s: State, e: Event)
    requires Strands(s) && e.AddSorted? && Enabled(s, e)
    ensures Strands(Step(s, e))
  {
    hide Clear, Fronted, NoOwn, InTime;
  }

  lemma AddBackStrands(s: State, e: Event)
    requires Strands(s) && e.AddBack? && Enabled(s, e)
    ensures Strands(Step(s, e))
  {
    hide Clear, Fenced, Insert;
    var t := Step(s, e);
    var n := |s.queue|;
    var r := t.queue[n];
    InsertLast(s.queue, r);
    DatedInsert(s, t, n, r);
    assert forall x :: 0 <= x < n && s.queue[x].Barrier() ==> !Own(s.queue[x], r);
    ActiveDated(s);
    InsertStrands(s, t, n, r);
  }

  lemma ActiveDated(s: State)
    requires Fenced(s)
    ensures s.Active() ==> s.orig.value.Normal? && s.orig.value.epoch < s.added
  {}

  lemma AddFrontStrands(s: State, e: Event)
    requires Strands(s) && e.AddFront? && Enabled(s, e)
    ensures Strands(Step(s, e))
  {
    hide Clear, Fenced, Dated;
    var t := Step(s, e);
    var r := t.queue[0];
    assert t.queue == Insert(s.queue, 0, r);
    assert Dated(t) by { DatedKept(s); DatedInsert(s, t, 0, r); }
    InsertStrands(s, t, 0, r);
  }

  lemma DatedKept(s: State)
    requires Dated(s)
    ensures forall x :: x in s.sorted ==> Plain(x) && x.epoch == s.added
    ensures forall x :: x in s.issued ==> InTime(x, s.added)
  {}

  lemma DispatchStrands(s: State, e: Event)
    requires Strands(s) && e.Dispatch? && Enabled(s, e)
    ensures Strands(Step(s, e))
  {
    hide Clear, Insert;
    var t := Step(s, e);
    assert InTime(e.r, s.added);
    DatedInsert(s, t, e.slot, e.r);
    forall y | e.slot <= y < |s.queue|
      ensures s.Active() ==> !Own(s.orig.value, s.queue[y])
    {
      assert !s.queue[y].Stop();
    }
    assert forall x :: 0 <= x < e.slot && s.queue[x].Barrier() ==> !Own(s.queue[x], e.r);
    InsertStrands(s, t, e.slot, e.r);
  }

  lemma PeekStrands(s: State, e: Event)
    requires Strands(s) && e.Peek? && Enabled(s, e)
    ensures Strands(Step(s, e))
  {
    hide Allowed;
    var t := Step(s, e);
    assert forall x :: 0 <= x < |t.queue| ==> t.queue[x] == if x == 0 then Stopped(s.queue[0]) else s.queue[x];
  }

  /** What the driver may take after the drain was queued after the barrier. */
  lemma TakenIsLater(s: State)
    requires Core(s) && Fenced(s) && s.Active() && s.ordseq.drain && s.queue != [] && Allowed(s, s.queue[0])
    ensures s.queue[0].Normal? && s.queue[0].fs ==> Later(s.queue[0], s.orig.value.epoch)
  {
    hide Kinds, Once, ProxiesOk, CurSeq, Fronted;
    CurSeqIsFirstIncomplete(s.ordseq);
  }

  lemma FetchStrands(s: State, e: Event)
    requires Core(s) && Strands(s) && e.Fetch? && Enabled(s, e)
    ensures Strands(Step(s, e))
  {
    hide Core, Clear, Allowed, Taken, Dated, Fenced;
    TakenKeeps(s);
    ClearTail(s.queue);
    assert Fenced(Taken(s)) by { FetchFenced(s); }
    assert Dated(Taken(s)) by { FetchDated(s); }
  }

  lemma FetchFenced(s: State)
    requires Core(s) && Fenced(s) && s.queue != [] && Allowed(s, s.queue[0])
    ensures Fenced(Taken(s))
  {
    hide Kinds, Once, ProxiesOk, CurSeq, Allowed, ReqSeq, Own;
    assert forall x :: 0 <= x < |s.queue| - 1 ==> s.queue[1..][x] == s.queue[x + 1];
    if s.Active() && s.ordseq.drain {
      TakenIsLater(s);
    }
  }

  lemma FetchDated(s: State)
    requires Dated(s) && s.queue != []
    ensures Dated(Taken(s))
  {
    var t := Taken(s);
    assert forall x :: 0 <= x < |t.queue| ==> t.queue[x] == s.queue[x + 1];
    assert InTime(s.queue[0], s.added) && InTime(Bare(s.queue[0]), s.added);
  }

  /** Where a request that comes back goes. */
  function Slot(s: State, r: Rq): (j: nat)
    ensures j <= |s.queue|
  {
    if s.Active() then RequeueSlot(s, r, 0) else 0
  }

  /** A barrier comes back from the driver, before a request of its colour queued earlier. */
  ghost predicate CutsIn(s: State, e: Event) {
    e.Requeue? && e.r.Barrier() && exists y :: Slot(s, e.r) <= y < |s.queue| && Own(e.r, s.queue[y])
  }

  lemma CutInBreaks(s: State, e: Event)
    requires Enabled(s, e) && CutsIn(s, e)
    ensures !Clear(Step(s, e).queue)
  {
    hide Remove, ReqSeq;
    var j := Slot(s, e.r);
    var y :| j <= y < |s.queue| && Own(e.r, s.queue[y]);
    var q := Step(s, e).queue;
    assert q[j] == Stopped(e.r) && q[y + 1] == s.queue[y];
    assert q[j].Barrier() && Own(q[j], q[y + 1]);
  }

  lemma RequeueStrands(s: State, e: Event)
    requires Core(s) && Strands(s) && e.Requeue? && Enabled(s, e) && !CutsIn(s, e)
    ensures Strands(Step(s, e))
  {
    hide Core, Clear, Insert, Remove, ReqSeq;
    var t := Step(s, e);
    var j := Slot(s, e.r);
    var r := Stopped(e.r);
    RemoveKeeps(s, e.r);
    FewerFlight(s, e.r);
    RequeueInTime(s, e.r);
    DatedInsert(s, t, j, r);
    if s.Active() {
      SlotFits(s, e.r, j);
    }
    InsertStrands(s, t, j, r);
  }

  lemma FewerFlight(s: State, r: Rq)
    ensures Remove(s, r).issued <= s.issued
  {}

  lemma RequeueInTime(s: State, r: Rq)
    requires Core(s) && Dated(s) && (r in s.issued || r in s.special)
    ensures InTime(Stopped(r), s.added)
  {
    hide Once, ProxiesOk;
  }

  /** A request that comes back goes to the front, or behind everything of the barrier's colour. */
  lemma SlotFits(s: State, r: Rq, j: nat)
    requires Core(s) && Fenced(s) && s.Active() && (r in s.issued || r in s.special) && j == RequeueSlot(s, r, 0)
    ensures forall x :: 0 <= x < j && s.queue[x].Barrier() ==> !Own(s.queue[x], Stopped(r))
    ensures Own(s.orig.value, Stopped(r)) ==> j == 0 && Stopped(r).stop && !s.ordseq.drain
    ensures ReqSeq(s.orig, Stopped(r)) == DRAIN || forall y :: j <= y < |s.queue| ==> !Own(s.orig.value, s.queue[y])
  {
    hide Once, CurSeq;
    var o := s.orig.value;
    if r.Normal? && r.fs && r.color != o.color {
      forall x | 0 <= x < j && s.queue[x].Barrier()
        ensures s.queue[x].color == o.color
      {
        assert ReqSeq(s.orig, s.queue[x]) < ReqSeq(s.orig, r);
      }
      forall y | j <= y < |s.queue|
        ensures !Own(o, s.queue[y])
      {
        assert ReqSeq(s.orig, s.queue[j]) >= DONE;
      }
    } else if !r.Normal? {
      assert s.ordseq.drain;
    }
  }

  lemma DrainStrands(s: State)
    requires Strands(s) && s.Active() && s.issued == multiset{} && (s.queue == [] || ReqSeq(s.orig, s.queue[0]) > DRAIN)
    ensures Strands(CompleteSeq(s, DRAIN_BIT))
  {
    hide Clear, Dated, CurSeq;
    assert NoOwn(s.queue, s.orig.value) by {
      forall y | 0 <= y < |s.queue|
        ensures !Own(s.orig.value, s.queue[y])
      {
        assert ReqSeq(s.orig, s.queue[0]) > DRAIN;
      }
    }
    DatedKeeps(s, CompleteSeq(s, DRAIN_BIT));
  }

  lemma DatedKeeps(s: State, t: State)
    requires Dated(s) && t.queue == s.queue && t.sorted == s.sorted && t.issued <= s.issued && t.added == s.added
    ensures Dated(t)
  {}

  /** A step after the drain is done. */
  lemma StepDone(s: State, r: Rq)
    requires Strands(s) && s.Active() && !r.Normal?
    ensures Strands(CompleteSeq(s, BitOf(r)))
  {
    hide Clear, Dated, CurSeq, Fronted, NoOwn;
    DatedKeeps(s, CompleteSeq(s, BitOf(r)));
  }

  lemma RemoveStrands(s: State, r: Rq)
    requires Strands(s)
    ensures Strands(Remove(s, r))
  {
    hide Clear, Dated, Fronted, NoOwn, Remove;
    RemoveKeeps(s, r);
    FewerFlight(s, r);
    DatedKeeps(s, Remove(s, r));
  }

  lemma CompleteStrands(s: State, e: Event)
    requires Core(s) && Strands(s) && e.Complete? && Enabled(s, e)
    ensures Strands(Step(s, e))
  {
    hide Core, Strands, Remove, CompleteSeq, CurSeq, ReqSeq, BitOf;
    RemoveKeeps(s, e.r);
    RemoveStrands(s, e.r);
    var u := Remove(s, e.r);
    if u.Active() && u.issued == multiset{} && (u.queue == [] || ReqSeq(u.orig, u.queue[0]) > DRAIN) {
      DrainStrands(u);
    }
    if !e.r.Normal? {
      ProxyEndsCore(s, e.r);
      StepDone(u, e.r);
    }
  }

  /** The barrier leaves the queue: nothing behind it is its own. */
  lemma BegunStrands(s: State, u: State)
    requires Strands(s) && !s.Active() && s.queue != [] && s.queue[0].Barrier()
    requires u == s.(queue := s.queue[1..], orig := Some(s.queue[0]), ordseq := u.ordseq)
    requires u.ordseq.drain ==> s.issued == multiset{}
    ensures Strands(u) && NoOwn(u.queue, s.queue[0])
  {
    ClearTail(s.queue);
    assert forall x :: 0 <= x < |u.queue| ==> u.queue[x] == s.queue[x + 1];
  }

  lemma PushStrands(s: State, wanted: bool, r: Rq)
    requires Strands(s) && s.Active() && !r.Normal? && NoOwn(s.queue, s.orig.value)
    ensures var t := s.(queue := Push(wanted, r, s.queue)); Strands(t) && NoOwn(t.queue, s.orig.value)
  {
    hide Clear, Fenced, Dated;
    var t := s.(queue := Push(wanted, r, s.queue));
    if wanted {
      assert t.queue == Insert(s.queue, 0, r);
      NoOwnInsert(s.queue, 0, r, s.orig.value);
      assert Dated(t) by { DatedKept(s); DatedInsert(s, t, 0, r); }
      ActiveDated(s);
      InsertStrands(s, t, 0, r);
    } else {
      assert t == s;
    }
  }

  lemma SequenceStrands(s: State, bits: OrdSeq)
    requires Strands(s) && s.Active() && NoOwn(s.queue, s.orig.value) && (bits.drain ==> s.issued == multiset{})
    ensures Strands(CompleteSeq(s, bits))
  {
    hide Clear, Dated, CurSeq, NoOwn, Fronted;
    DatedKeeps(s, CompleteSeq(s, bits));
  }

  lemma StartStrands(s: State, e: Event)
    requires Strands(s) && e.Start? && Enabled(s, e)
    ensures Strands(Step(s, e))
  {
    hide Strands, NoOwn, Push, CompleteSeq;
    var b := s.queue[0];
    var doPost := e.postflush && b.sectors != 0;
    var u := s.(queue := s.queue[1..], orig := Some(b), ordseq := IDLE.(started := true));
    BegunStrands(s, u);
    PushStrands(u, doPost, Post);
    var u1 := u.(queue := Push(doPost, Post, u.queue));
    PushStrands(u1, b.sectors != 0, Bar);
    var u2 := u1.(queue := Push(b.sectors != 0, Bar, u1.queue));
    PushStrands(u2, e.preflush, Pre);
    var u3 := u2.(queue := Push(e.preflush, Pre, u2.queue));
    SequenceStrands(u3, OrdSeq(false, s.issued == multiset{}, !e.preflush, b.sectors == 0, !doPost));
  }

  /** Every event, at any colour, keeps it exactly if it does not put a barrier back before an earlier request of
      its colour. */
  lemma StepStrandsIff(s: State, e: Event)
    requires Core(s) && Strands(s) && Enabled(s, e)
    ensures Strands(Step(s, e)) <==> !CutsIn(s, e)
  {
    hide Core, Strands, Step, Enabled, CutsIn;
    match e
    case AddSorted(_, _, _, _) => AddSortedStrands(s, e); OnlyBack(s, e);
    case AddBack(_, _, _, _, _, _) => AddBackStrands(s, e); OnlyBack(s, e);
    case AddFront(_, _, _, _, _) => AddFrontStrands(s, e); OnlyBack(s, e);
    case Dispatch(_, _) => DispatchStrands(s, e); OnlyBack(s, e);
    case Start(_, _) => StartStrands(s, e); OnlyBack(s, e);
    case Peek => PeekStrands(s, e); OnlyBack(s, e);
    case Fetch => FetchStrands(s, e); OnlyBack(s, e);
    case Complete(_) => CompleteStrands(s, e); OnlyBack(s, e);
    case Requeue(_) =>
      if CutsIn(s, e) {
        CutInBreaks(s, e);
        NeedsClear(Step(s, e));
      } else {
        RequeueStrands(s, e);
      }
  }

  lemma OnlyBack(s: State, e: Event)
    requires !e.Requeue?
    ensures !CutsIn(s, e)
  {}

  lemma NeedsClear(s: State)
    ensures Strands(s) ==> Clear(s.queue)
  {}
}
