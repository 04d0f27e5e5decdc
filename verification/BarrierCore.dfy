/** What every run keeps, whatever its colours: where the internal requests are and which bits are set. */
module BarrierCore {
  import opened Options
  import opened BarrierModel
  import opened BarrierSafety

  /** What the scheduler and the driver hold. */
  ghost predicate Kinds(s: State) {
    && (forall r :: r in s.sorted ==> Plain(r) && !r.stop)
    && (forall r :: r in s.issued ==> r == Bar || (r.Normal? && r.fs && !r.stop))
    && (forall r :: r in s.special ==> r == Pre || r == Post || (r.Normal? && !r.fs && !r.stop))
  }

  predicate InStep(s: State) {
    (s.ordseq.started <==> s.Active()) && (!s.Active() ==> s.ordseq == IDLE)
  }

  ghost predicate Open(s: State) { Kinds(s) && Once(s.queue) && ProxiesOk(s) && InStep(s) }

  ghost predicate Core(s: State) { Open(s) && !Finished(s.ordseq) }

  lemma InitialCore()
    ensures Core(INITIAL)
  {}

  // The queue

  lemma OnceInsert(q: seq<Rq>, j: nat, r: Rq)
    requires Once(q) && j <= |q| && (r.Normal? || !Queued(q, r))
    ensures Once(Insert(q, j, r))
  {
    var p := Insert(q, j, r);
    forall x, y | 0 <= x < y < |p| && p[x] == p[y]
      ensures p[x].Normal?
    {
      var x' := if x < j then x else x - 1;
      var y' := if y < j then y else y - 1;
      if x == j {
        assert q[y'] == r;
      } else if y == j {
        assert q[x'] == r;
      } else {
        assert q[x'] == q[y'];
      }
    }
  }

  lemma OncePush(wanted: bool, r: Rq, q: seq<Rq>)
    requires Once(q) && !Queued(q, r)
    ensures Once(Push(wanted, r, q))
  {
    if wanted {
      assert [r] + q == Insert(q, 0, r);
      OnceInsert(q, 0, r);
    }
  }

  lemma OnceTail(q: seq<Rq>)
    requires Once(q) && q != []
    ensures Once(q[1..])
  {
    var p := q[1..];
    forall x, y | 0 <= x < y < |p| && p[x] == p[y]
      ensures p[x].Normal?
    {
      assert q[x + 1] == q[y + 1];
    }
  }

  /** One more request from outside in the queue. */
  lemma InsertCore(s: State, t: State, j: nat, r: Rq)
    requires Core(s) && j <= |s.queue| && r.Normal? && t.queue == Insert(s.queue, j, r) && Kinds(t)
    requires t.ordseq == s.ordseq && t.orig == s.orig
    requires t.issued[Bar] == s.issued[Bar] && t.special[Pre] == s.special[Pre] && t.special[Post] == s.special[Post]
    ensures Core(t)
  {
    hide Kinds, Once, ProxiesOk, Queued, Insert;
    OnceInsert(s.queue, j, r);
    InsertMembers(s.queue, j, r);
    ProxiesKept(s, t);
  }

  lemma AddCore(s: State, e: Event)
    requires Core(s) && Enabled(s, e) && Insertion(e)
    ensures Core(Step(s, e))
  {
    hide Kinds, Once, ProxiesOk, Queued;
    var t := Step(s, e);
    AddKinds(s, e);
    if e.AddBack? {
      assert t.queue == Insert(s.queue, |s.queue|, t.queue[|s.queue|]);
      InsertCore(s, t, |s.queue|, t.queue[|s.queue|]);
    } else if e.AddFront? {
      assert t.queue == Insert(s.queue, 0, t.queue[0]);
      InsertCore(s, t, 0, t.queue[0]);
    } else {
      ProxiesKept(s, t);
    }
  }

  lemma AddKinds(s: State, e: Event)
    requires Kinds(s) && Enabled(s, e) && Insertion(e)
    ensures Kinds(Step(s, e))
  {}

  lemma DispatchCore(s: State, e: Event)
    requires Core(s) && Enabled(s, e) && e.Dispatch?
    ensures Core(Step(s, e))
  {
    hide Once, ProxiesOk, Queued, Insert;
    InsertCore(s, Step(s, e), e.slot, e.r);
  }

  lemma PeekCore(s: State, e: Event)
    requires Core(s) && Enabled(s, e) && e.Peek?
    ensures Core(Step(s, e))
  {
    hide Kinds, ProxiesOk, Queued, Allowed;
    var t := Step(s, e);
    PeekMembers(s.queue);
    ProxiesKept(s, t);
    forall x, y | 0 <= x < y < |t.queue| && t.queue[x] == t.queue[y]
      ensures t.queue[x].Normal?
    {
      assert x > 0 || !t.queue[0].Normal? ==> s.queue[x] == s.queue[y];
    }
    KindsKept(s, t);
  }

  lemma KindsKept(s: State, t: State)
    requires Kinds(s) && t.sorted <= s.sorted && t.issued <= s.issued && t.special <= s.special
    ensures Kinds(t)
  {}

  /** An internal request that may be taken is the current step. */
  lemma ProxyIsCurrent(s: State)
    requires Core(s) && s.queue != [] && !s.queue[0].Normal? && Allowed(s, s.queue[0])
    ensures s.Active() && ReqSeq(s.orig, s.queue[0]) == CurSeq(s.ordseq)
    ensures match s.queue[0]
      case Pre => s.ordseq.drain
      case Bar => s.ordseq.drain && s.ordseq.pre
      case Post => s.ordseq.drain && s.ordseq.pre && s.ordseq.bar
  {
    hide Kinds, Once, CurSeq;
    assert Queued(s.queue, s.queue[0]);
    CurSeqIsFirstIncomplete(s.ordseq);
  }

  lemma FetchCore(s: State, e: Event)
    requires Core(s) && Enabled(s, e) && e.Fetch?
    ensures Core(Step(s, e))
  {
    hide Kinds, Once, ProxiesOk, Allowed, CurSeq, ReqSeq, Taken;
    TakenKeeps(s);
    if !s.queue[0].Normal? {
      ProxyIsCurrent(s);
    }
    OnceTail(s.queue);
    FetchProxies(s, Step(s, e));
    FetchKinds(s);
  }

  lemma TakenKeeps(s: State)
    requires s.queue != []
    ensures var t := Taken(s); t == s.(queue := s.queue[1..], issued := t.issued, special := t.special)
  {}

  lemma FetchKinds(s: State)
    requires Kinds(s) && s.queue != []
    ensures Kinds(Taken(s))
  {}

  lemma RequeueCore(s: State, e: Event)
    requires Core(s) && Enabled(s, e) && e.Requeue?
    ensures Core(Step(s, e))
  {
    hide Kinds, Once, ProxiesOk, Insert, Queued, Remove;
    var j := if s.Active() then RequeueSlot(s, e.r, 0) else 0;
    var t := Step(s, e);
    RemoveKeeps(s, e.r);
    RemoveKinds(s, e.r);
    KindsKept(Remove(s, e.r), t);
    if e.r.Normal? {
      RemoveShrinks(s, e.r);
      InsertCore(s, t, j, Stopped(e.r));
    } else {
      RequeueProxyCore(s, t, e.r, j);
    }
  }

  lemma RemoveKinds(s: State, r: Rq)
    requires Kinds(s)
    ensures Kinds(Remove(s, r))
    ensures (r in s.issued || r in s.special) && !r.Normal? ==> if r == Bar then r in s.issued else r in s.special
  {}

  lemma RequeueProxyCore(s: State, t: State, r: Rq, j: nat)
    requires Core(s) && !r.Normal? && j <= |s.queue| && (if r == Bar then r in s.issued else r in s.special)
    requires t == Remove(s, r).(queue := Insert(s.queue, j, r)) && Kinds(t)
    ensures Core(t)
  {
    hide Kinds, Once, Insert, Queued;
    assert s.Active() && !Queued(s.queue, r);
    OnceInsert(s.queue, j, r);
    RequeueProxies(s, t, r, j);
  }

  // Completion

  lemma FinishCore(s: State)
    requires Open(s) && s.Active()
    ensures Core(CompleteSeq(s, IDLE))
  {
    hide Kinds, Once, Queued, CurSeq;
    CurSeqIsFirstIncomplete(s.ordseq);
    assert Or(s.ordseq, IDLE) == s.ordseq;
    KindsKept(s, CompleteSeq(s, IDLE));
  }

  lemma DrainedCore(s: State)
    requires Core(s)
    ensures Core(Drained(s))
  {
    hide Kinds, Once, CurSeq, CompleteSeq, Queued;
    var t := s.(ordseq := Or(s.ordseq, DRAIN_BIT));
    if s.Active() {
      KindsKept(s, t);
      CompleteSeqSplit(s, DRAIN_BIT);
      FinishCore(t);
    }
  }

  /** The end of an internal request: its bit was clear, and nothing waits for draining. */
  lemma ProxyEndsCore(s: State, r: Rq)
    requires Core(s) && !r.Normal? && (r in s.issued || r in s.special)
    ensures Open(Remove(s, r).(ordseq := Or(s.ordseq, BitOf(r))))
    ensures s.Active() && s.ordseq.drain && !Overlap(s.ordseq, BitOf(r))
    ensures Drained(Remove(s, r)) == Remove(s, r)
  {
    hide Kinds, Once, CurSeq, ProxiesOk, Queued, Overlap, ReqSeq;
    var t := Remove(s, r).(ordseq := Or(s.ordseq, BitOf(r)));
    RemoveKinds(s, r);
    ProxyBits(s, t, r);
    CurSeqIsFirstIncomplete(s.ordseq);
    KindsKept(Remove(s, r), t);
  }

  lemma CompleteCore(s: State, e: Event)
    requires Core(s) && Enabled(s, e) && e.Complete?
    ensures Core(Step(s, e))
  {
    hide Kinds, Once, CurSeq, ProxiesOk, Queued, Drained, CompleteSeq, Remove, BitOf;
    RemoveKeeps(s, e.r);
    if e.r.Normal? {
      RemoveKinds(s, e.r);
      RemoveShrinks(s, e.r);
      ProxiesKept(s, Remove(s, e.r));
      DrainedCore(Remove(s, e.r));
    } else {
      ProxyEndsCore(s, e.r);
      CompleteSeqSplit(Remove(s, e.r), BitOf(e.r));
      FinishCore(Remove(s, e.r).(ordseq := Or(s.ordseq, BitOf(e.r))));
    }
  }

  // Starting

  lemma StartQueue(s: State, q: seq<Rq>, doPre: bool, doBar: bool, doPost: bool)
    requires Core(s) && !s.Active() && s.queue != [] && s.queue[0].Normal?
    requires q == Push(doPre, Pre, Push(doBar, Bar, Push(doPost, Post, s.queue[1..])))
    ensures Once(q) && Queued(q, Pre) == doPre && Queued(q, Bar) == doBar && Queued(q, Post) == doPost
  {
    hide Kinds, Once, Queued, Push;
    var q0 := s.queue[1..];
    TailMembers(s.queue);
    OnceTail(s.queue);
    var q1 := Push(doPost, Post, q0);
    PushMembers(doPost, Post, q0);
    OncePush(doPost, Post, q0);
    var q2 := Push(doBar, Bar, q1);
    PushMembers(doBar, Bar, q1);
    OncePush(doBar, Bar, q1);
    PushMembers(doPre, Pre, q2);
    OncePush(doPre, Pre, q2);
  }

  lemma StartCore(s: State, e: Event)
    requires Core(s) && Enabled(s, e) && e.Start?
    ensures Core(Step(s, e))
  {
    hide Kinds, Once, ProxiesOk, Queued, CurSeq, Push, CompleteSeq;
    var b := s.queue[0];
    var doPost := e.postflush && b.sectors != 0;
    var q := Push(e.preflush, Pre, Push(b.sectors != 0, Bar, Push(doPost, Post, s.queue[1..])));
    StartQueue(s, q, e.preflush, b.sectors != 0, doPost);
    var u := s.(queue := q, orig := Some(b), ordseq := OrdSeq(true, s.issued == multiset{}, !e.preflush, b.sectors == 0, !doPost));
    StartProxies(s, u, e.preflush, b.sectors != 0, doPost);
    KindsKept(s, u);
    CompleteSeqSplit(u.(ordseq := IDLE.(started := true)), OrdSeq(false, s.issued == multiset{}, !e.preflush, b.sectors == 0, !doPost));
    FinishCore(u);
  }

  /** Every event keeps it. */
  lemma StepCore(s: State, e: Event)
    requires Core(s) && Enabled(s, e)
    ensures Core(Step(s, e))
  {
    hide Core, Step, Enabled;
    match e
    case AddSorted(_, _, _, _) => AddCore(s, e);
    case AddBack(_, _, _, _, _, _) => AddCore(s, e);
    case AddFront(_, _, _, _, _) => AddCore(s, e);
    case Dispatch(_, _) => DispatchCore(s, e);
    case Start(_, _) => StartCore(s, e);
    case Peek => PeekCore(s, e);
    case Fetch => FetchCore(s, e);
    case Requeue(_) => RequeueCore(s, e);
    case Complete(_) => CompleteCore(s, e);
  }
}
