/** Whole runs of the queue: ordering, the order of one barrier's steps, progress, and
    conservation of requests. */
module BarrierRuns {
  import opened Options
  import opened BarrierModel
  import opened BarrierSafety
  import opened BarrierCore

  // Progress

  /** While requests queued before the barrier are awaited, one is with the driver or next. */
  ghost predicate Awaiting(s: State) {
    s.Active() && !s.ordseq.drain && s.issued == multiset{} && s.special == multiset{} ==>
      s.queue != [] && ReqSeq(s.orig, s.queue[0]) == DRAIN
  }

  /** A completion either ends the wait or leaves something to wait for. */
  lemma DrainedAwaits(s: State)
    requires Inv(s)
    ensures Awaiting(Drained(s))
  {
    hide QueueOk, SortedOk, FlightOk, ProxiesOk, EarlierOk;
    if s.Active() {
      CurSeqIsFirstIncomplete(s.ordseq);
    }
  }

  /** The awaited request at the head carries a stop flag, so nothing is sorted in front of it. */
  lemma DispatchBehind(s: State, slot: nat)
    requires Inv(s) && Sided(s) && s.Active() && s.queue != [] && ReqSeq(s.orig, s.queue[0]) == DRAIN && Passable(s.queue, slot)
    ensures slot > 0
  {
    hide SortedOk, FlightOk, ProxiesOk;
    var h := s.queue[0];
    assert h in s.queue && WellFormed(h);
    if h.fs {
      HeadEpoch(s);
    }
    assert h.Stop();
  }

  lemma AwaitingDispatch(s: State, e: Event)
    requires Inv(s) && Sided(s) && Awaiting(s) && e.Dispatch? && Enabled(s, e)
    ensures Awaiting(Step(s, e))
  {
    hide QueueOk, SortedOk, FlightOk, ProxiesOk, EarlierOk;
    if s.Active() && s.queue != [] && ReqSeq(s.orig, s.queue[0]) == DRAIN {
      DispatchBehind(s, e.slot);
    }
  }

  lemma AwaitingFetch(s: State, e: Event)
    requires Inv(s) && Sided(s) && Awaiting(s) && e.Fetch? && Enabled(s, e)
    ensures Awaiting(Step(s, e))
  {
    hide QueueOk, SortedOk, FlightOk, ProxiesOk, EarlierOk;
    var t := Step(s, e);
    var r := Bare(s.queue[0]);
    assert r in (if r.Fs() then t.issued else t.special);
  }

  lemma AwaitingRequeue(s: State, e: Event)
    requires Inv(s) && Sided(s) && Awaiting(s) && e.Requeue? && Enabled(s, e)
    ensures Awaiting(Step(s, e))
  {
    hide QueueOk, SortedOk, EarlierOk;
    if s.Active() && !s.ordseq.drain {
      var j := RequeueSlot(s, e.r, 0);
      assert ReqSeq(s.orig, e.r) == DRAIN;
      assert s.queue != [] ==> ReqSeq(s.orig, s.queue[0]) >= DRAIN;
      assert j == 0;
    }
  }

  lemma AwaitingComplete(s: State, e: Event)
    requires Inv(s) && Sided(s) && Awaiting(s) && e.Complete? && Enabled(s, e)
    ensures Awaiting(Step(s, e))
  {
    hide Inv, Sided, Awaiting, Drained, Remove, CompleteSeq, BitOf;
    if e.r.Normal? {
      RemoveInv(s, e.r);
      DrainedAwaits(Remove(s, e.r));
    } else {
      ProxyEnds(s, e.r);
      RemoveKeeps(s, e.r);
      DrainedOnce(Remove(s, e.r), BitOf(e.r));
    }
  }

  lemma DrainedOnce(s: State, bits: OrdSeq)
    requires s.ordseq.drain
    ensures Awaiting(CompleteSeq(s, bits))
  {
    hide CurSeq, ReqSeq;
  }

  lemma AwaitingStart(s: State, e: Event)
    requires Inv(s) && Sided(s) && Awaiting(s) && e.Start? && Enabled(s, e)
    ensures Awaiting(Step(s, e))
  {
    hide QueueOk, SortedOk, EarlierOk, FlightOk, ProxiesOk, CurSeq;
  }

  lemma AwaitingStep(s: State, e: Event)
    requires Inv(s) && Sided(s) && Awaiting(s) && Enabled(s, e)
    ensures Awaiting(Step(s, e))
  {
    hide QueueOk, SortedOk, EarlierOk, FlightOk, ProxiesOk, CurSeq;
    match e
    case AddSorted(_, _, _, _) =>
    case AddBack(_, _, _, _, _, _) =>
    case AddFront(_, _, _, _, _) =>
    case Dispatch(_, _) => AwaitingDispatch(s, e);
    case Start(_, _) => AwaitingStart(s, e);
    case Peek =>
    case Fetch => AwaitingFetch(s, e);
    case Requeue(_) => AwaitingRequeue(s, e);
    case Complete(_) => AwaitingComplete(s, e);
  }

  /** The queue never wedges: with nothing left at the driver, the first request can be taken or
      its sequence started, and a sequence in progress always has such a request. */
  lemma Progress(s: State)
    requires Inv(s) && Sided(s) && Awaiting(s) && s.issued == multiset{} && s.special == multiset{}
    ensures s.Active() ==> s.queue != []
    ensures s.queue != [] ==> Enabled(s, Fetch) || Enabled(s, Start(true, true))
  {
    hide SortedOk, FlightOk, CurSeq;
    if s.Active() {
      CurSeqIsFirstIncomplete(s.ordseq);
      if s.ordseq.drain {
        FirstProxy(s);
      }
    }
  }

  lemma FirstProxy(s: State)
    requires Inv(s) && s.Active() && s.ordseq.drain && s.issued == multiset{} && s.special == multiset{}
    ensures s.queue != [] && Allowed(s, s.queue[0])
  {
    hide SortedOk, FlightOk, CurSeq, Waiting, WellFormed;
    CurSeqIsFirstIncomplete(s.ordseq);
    var p := if !s.ordseq.pre then Pre else if !s.ordseq.bar then Bar else Post;
    assert Queued(s.queue, p);
    var i :| 0 <= i < |s.queue| && s.queue[i] == p;
    var h := s.queue[0];
    assert h in s.queue;
    assert i == 0 || Before(h, p, s.completed);
    assert h == Pre ==> Queued(s.queue, Pre);
    assert h == Bar ==> Queued(s.queue, Bar);
    assert Keyed(h) ==> 8 * s.completed <= Key(h, s.completed);
  }

  // Conservation

  function One(r: Rq, x: Rq): nat {
    if Bare(r) == x then 1 else 0
  }

  function Times(q: seq<Rq>, x: Rq): nat {
    if q == [] then 0 else One(q[0], x) + Times(q[1..], x)
  }

  lemma {:induction false} TimesConcat(p: seq<Rq>, q: seq<Rq>, x: Rq)
    ensures Times(p + q, x) == Times(p, x) + Times(q, x)
  {
    if p == [] {
      assert p + q == q;
    } else {
      TimesConcat(p[1..], q, x);
      assert (p + q)[1..] == p[1..] + q;
    }
  }

  lemma TimesInsert(q: seq<Rq>, j: nat, r: Rq, x: Rq)
    requires j <= |q|
    ensures Times(Insert(q, j, r), x) == Times(q, x) + One(r, x)
  {
    TimesConcat(q[..j], [r], x);
    TimesConcat(q[..j] + [r], q[j..], x);
    TimesConcat(q[..j], q[j..], x);
    assert q == q[..j] + q[j..];
  }

  lemma TimesTail(q: seq<Rq>, x: Rq)
    requires q != []
    ensures Times(q, x) == One(q[0], x) + Times(q[1..], x)
  {}

  /** How many unfinished requests look like `x`. */
  function Held(s: State, x: Rq): nat {
    Times(s.queue, x) + s.sorted[x] + s.issued[x] + s.special[x] + if s.Active() then One(s.orig.value, x) else 0
  }

  /** The request an event brings in. */
  function Arrival(s: State, e: Event): Option<Rq> {
    match e
    case AddSorted(id, write, sector, sectors) =>
      Some(Normal(id, true, false, write, sector, sectors, s.ordcolor, false, s.added))
    case AddBack(id, fs, barrier, write, sector, sectors) =>
      Some(Normal(id, fs, barrier, write, sector, sectors, s.ordcolor, false, s.added))
    case AddFront(id, hard, write, sector, sectors) =>
      Some(Normal(id, false, hard, write, sector, sectors, s.ordcolor, false, s.added))
    case _ => None
  }

  /** The barrier in progress after the event, or ended by it. */
  function BarrierOf(s: State, e: Event): Option<Rq> {
    if e.Start? && s.queue != [] then Some(s.queue[0]) else s.orig
  }

  function Count(o: Option<Rq>, x: Rq): nat {
    if o.Some? then One(o.value, x) else 0
  }

  /** The requests an event ends: a completed one, and the barrier whose last step it was. */
  function Departures(s: State, e: Event, x: Rq): nat
    requires Enabled(s, e)
  {
    (if e.Complete? then One(e.r, x) else 0)
    + if Step(s, e).completed == s.completed then 0 else Count(BarrierOf(s, e), x)
  }

  lemma HeldAdd(s: State, e: Event, x: Rq)
    requires Enabled(s, e) && (e.AddSorted? || e.AddBack? || e.AddFront?)
    ensures Held(Step(s, e), x) == Held(s, x) + Count(Arrival(s, e), x)
  {
    hide Times;
    var t := Step(s, e);
    if e.AddBack? {
      var r := t.queue[|s.queue|];
      TimesOne(r, x);
      TimesConcat(s.queue, [r], x);
    } else if e.AddFront? {
      TimesOne(t.queue[0], x);
      TimesConcat([t.queue[0]], s.queue, x);
    }
  }

  lemma TimesOne(r: Rq, x: Rq)
    ensures Times([r], x) == One(r, x)
  {}

  lemma HeldDispatch(s: State, e: Event, x: Rq)
    requires Kinds(s) && Enabled(s, e) && e.Dispatch?
    ensures Held(Step(s, e), x) == Held(s, x)
  {
    hide Insert, Times;
    TimesInsert(s.queue, e.slot, e.r, x);
  }

  lemma HeldTake(s: State, e: Event, x: Rq)
    requires Enabled(s, e) && (e.Peek? || e.Fetch?) && x.Normal?
    ensures Held(Step(s, e), x) == Held(s, x)
  {
    hide *;
    if e.Peek? {
      HeldPeek(s, e, x);
    } else {
      HeldFetch(s, e, x);
    }
  }

  lemma HeldPeek(s: State, e: Event, x: Rq)
    requires Enabled(s, e) && e.Peek? && x.Normal?
    ensures Held(Step(s, e), x) == Held(s, x)
  {
    hide Times, Allowed;
    TimesTail(s.queue, x);
    var q := s.queue[0 := Stopped(s.queue[0])];
    TimesTail(q, x);
    assert q[1..] == s.queue[1..];
  }

  lemma HeldFetch(s: State, e: Event, x: Rq)
    requires Enabled(s, e) && e.Fetch? && x.Normal?
    ensures Held(Step(s, e), x) == Held(s, x)
  {
    hide Times, Allowed;
    TimesTail(s.queue, x);
  }

  lemma HeldRemoved(s: State, r: Rq, x: Rq)
    requires Kinds(s) && (r in s.issued || r in s.special) && x.Normal?
    ensures var t := Remove(s, r); t.issued[x] + t.special[x] + One(r, x) == s.issued[x] + s.special[x]
    ensures Bare(r) == r
  {}

  lemma HeldRequeue(s: State, e: Event, x: Rq)
    requires Kinds(s) && Enabled(s, e) && e.Requeue? && x.Normal?
    ensures Held(Step(s, e), x) == Held(s, x)
  {
    hide Kinds, Insert, Times, ReqSeq, Remove;
    var j := if s.Active() then RequeueSlot(s, e.r, 0) else 0;
    HeldRemoved(s, e.r, x);
    RemoveKeeps(s, e.r);
    TimesInsert(s.queue, j, Stopped(e.r), x);
  }

  lemma HeldFinish(s: State, bits: OrdSeq, x: Rq)
    ensures var t := CompleteSeq(s, bits);
      Held(t, x) + (if t.completed == s.completed then 0 else Count(s.orig, x)) == Held(s, x)
  {
    hide Times, CurSeq;
  }

  lemma HeldComplete(s: State, e: Event, x: Rq)
    requires Core(s) && Enabled(s, e) && e.Complete? && x.Normal?
    ensures Held(Step(s, e), x) + Departures(s, e, x) == Held(s, x)
  {
    hide Kinds, Once, ProxiesOk, CurSeq, Times, ReqSeq, Remove, CompleteSeq, One;
    HeldRemoved(s, e.r, x);
    RemoveKeeps(s, e.r);
    if e.r.Normal? {
      HeldFinish(Remove(s, e.r), DRAIN_BIT, x);
    } else {
      ProxyEndsCore(s, e.r);
      HeldFinish(Remove(s, e.r), BitOf(e.r), x);
    }
  }

  lemma TimesPush(wanted: bool, r: Rq, q: seq<Rq>, x: Rq)
    requires !r.Normal? && x.Normal?
    ensures Times(Push(wanted, r, q), x) == Times(q, x)
  {}

  lemma HeldStart(s: State, e: Event, x: Rq)
    requires Enabled(s, e) && e.Start? && x.Normal?
    ensures Held(Step(s, e), x) + Departures(s, e, x) == Held(s, x)
  {
    hide CurSeq, Push, Or, Times, CompleteSeq, One;
    var b := s.queue[0];
    var doPost := e.postflush && b.sectors != 0;
    var q1 := Push(doPost, Post, s.queue[1..]);
    var q2 := Push(b.sectors != 0, Bar, q1);
    var q3 := Push(e.preflush, Pre, q2);
    TimesTail(s.queue, x);
    TimesPush(doPost, Post, s.queue[1..], x);
    TimesPush(b.sectors != 0, Bar, q1, x);
    TimesPush(e.preflush, Pre, q2, x);
    HeldFinish(s.(queue := q3, orig := Some(b), ordseq := IDLE.(started := true)),
               OrdSeq(false, s.issued == multiset{}, !e.preflush, b.sectors == 0, !doPost), x);
  }

  /** No event loses or duplicates a request. */
  lemma Conserved(s: State, e: Event, x: Rq)
    requires Core(s) && Enabled(s, e) && x.Normal?
    ensures Held(Step(s, e), x) + Departures(s, e, x) == Held(s, x) + Count(Arrival(s, e), x)
  {
    hide Kinds, Once, ProxiesOk, Held;
    match e
    case AddSorted(_, _, _, _) => HeldAdd(s, e, x);
    case AddBack(_, _, _, _, _, _) => HeldAdd(s, e, x);
    case AddFront(_, _, _, _, _) => HeldAdd(s, e, x);
    case Dispatch(_, _) => HeldDispatch(s, e, x);
    case Start(_, _) => HeldStart(s, e, x);
    case Peek => HeldTake(s, e, x);
    case Fetch => HeldTake(s, e, x);
    case Requeue(_) => HeldRequeue(s, e, x);
    case Complete(_) => HeldComplete(s, e, x);
  }

  // Runs

  /** Every event of the run was possible when it happened. */
  ghost predicate Possible(es: seq<Event>) {
    es == [] || (Possible(es[..|es| - 1]) && Enabled(After(es[..|es| - 1]), es[|es| - 1]))
  }

  function After(es: seq<Event>): State {
    if es == [] then INITIAL
    else
      var s := After(es[..|es| - 1]);
      if Enabled(s, es[|es| - 1]) then Step(s, es[|es| - 1]) else s
  }

  lemma {:induction false} RunCore(es: seq<Event>)
    requires Possible(es)
    ensures Core(After(es))
  {
    hide Core, Enabled, Step;
    if es == [] {
      InitialCore();
    } else {
      RunCore(es[..|es| - 1]);
      StepCore(After(es[..|es| - 1]), es[|es| - 1]);
    }
  }

  /** The insertions of a run, in their order. */
  function Insertions(es: seq<Event>): seq<Event> {
    if es == [] then []
    else Insertions(es[..|es| - 1]) + if Insertion(es[|es| - 1]) then [es[|es| - 1]] else []
  }

  /** How many of them put HARDBARRIER on a request that is not a file system one. */
  function Hards(ins: seq<Event>): nat {
    if ins == [] then 0 else Hards(ins[..|ins| - 1]) + if HardInsertion(ins[|ins| - 1]) then 1 else 0
  }

  function Barriers(es: seq<Event>): nat {
    if es == [] then 0 else Barriers(es[..|es| - 1]) + if es[|es| - 1].AddBack? && es[|es| - 1].fs && es[|es| - 1].barrier then 1 else 0
  }

  /** The colour is the parity of all the insertions that turned it. */
  lemma {:induction false} ColourIsParity(es: seq<Event>)
    requires Possible(es)
    ensures After(es).ordcolor == ((Barriers(es) + Hards(Insertions(es))) % 2 == 1)
  {
    hide Enabled, Step;
    if es != [] {
      var init, e := es[..|es| - 1], es[|es| - 1];
      ColourIsParity(init);
      StepColour(After(init), e);
      if Insertion(e) {
        assert Insertions(es)[..|Insertions(es)| - 1] == Insertions(init);
      } else {
        assert Insertions(es) == Insertions(init);
      }
    }
  }

  lemma StepColour(s: State, e: Event)
    requires Enabled(s, e)
    ensures Step(s, e).ordcolor == (s.ordcolor != (HardInsertion(e) || (e.AddBack? && e.fs && e.barrier)))
  {
    hide CompleteSeq, Remove, Push, Insert, ReqSeq, CurSeq, Allowed, Taken;
    if e.Start? {
      var b := s.queue[0];
      var doPost := e.postflush && b.sectors != 0;
      var q := Push(e.preflush, Pre, Push(b.sectors != 0, Bar, Push(doPost, Post, s.queue[1..])));
      SeqColour(s.(queue := q, orig := Some(b), ordseq := IDLE.(started := true)),
                OrdSeq(false, s.issued == multiset{}, !e.preflush, b.sectors == 0, !doPost));
    } else if e.Complete? {
      SeqColour(Remove(s, e.r), DRAIN_BIT);
      SeqColour(Drained(Remove(s, e.r)), BitOf(e.r));
      RemoveKeeps(s, e.r);
    } else if e.Requeue? {
      RemoveKeeps(s, e.r);
    } else if e.Fetch? {
      TakenKeeps(s);
    }
  }

  lemma SeqColour(s: State, bits: OrdSeq)
    ensures CompleteSeq(s, bits).ordcolor == s.ordcolor
  {}

  lemma InitialAwaiting()
    ensures Awaiting(INITIAL)
  {}

  lemma {:induction false} PossiblePrefix(es: seq<Event>, k: nat)
    requires Possible(es) && k <= |es|
    ensures Possible(es[..k])
    ensures k < |es| ==> Enabled(After(es[..k]), es[k])
  {
    hide Enabled, Step;
    if k < |es| {
      PossiblePrefix(es[..|es| - 1], k);
      assert es[..|es| - 1][..k] == es[..k];
    } else {
      assert es[..k] == es;
    }
  }

  lemma StepAdded(s: State, e: Event)
    requires Enabled(s, e)
    ensures Step(s, e).added == s.added + if e.AddBack? && e.fs && e.barrier then 1 else 0
  {
    hide CompleteSeq, Remove, Push, Insert, ReqSeq, CurSeq, Allowed, Taken;
    if e.Start? {
      var b := s.queue[0];
      var doPost := e.postflush && b.sectors != 0;
      var q := Push(e.preflush, Pre, Push(b.sectors != 0, Bar, Push(doPost, Post, s.queue[1..])));
      SeqAdded(s.(queue := q, orig := Some(b), ordseq := IDLE.(started := true)),
               OrdSeq(false, s.issued == multiset{}, !e.preflush, b.sectors == 0, !doPost));
    } else if e.Complete? {
      SeqAdded(Remove(s, e.r), DRAIN_BIT);
      SeqAdded(Drained(Remove(s, e.r)), BitOf(e.r));
      RemoveKeeps(s, e.r);
    } else if e.Requeue? {
      RemoveKeeps(s, e.r);
    } else if e.Fetch? {
      TakenKeeps(s);
    }
  }

  lemma SeqAdded(s: State, bits: OrdSeq)
    ensures CompleteSeq(s, bits).added == s.added
  {}

  /** A request's epoch is the number of barriers queued before it. */
  lemma {:induction false} EpochIsBarriers(es: seq<Event>)
    requires Possible(es)
    ensures After(es).added == Barriers(es)
  {
    hide Enabled, Step;
    if es != [] {
      EpochIsBarriers(es[..|es| - 1]);
      StepAdded(After(es[..|es| - 1]), es[|es| - 1]);
    }
  }

  lemma {:induction false} BarriersGrow(es: seq<Event>, i: nat, j: nat)
    requires i <= j <= |es|
    ensures Barriers(es[..i]) <= Barriers(es[..j])
    ensures i < j && es[i].AddBack? && es[i].fs && es[i].barrier ==> Barriers(es[..i]) < Barriers(es[..j])
  {
    if i < j {
      BarriersGrow(es, i, j - 1);
      assert es[..j][..j - 1] == es[..j - 1] && es[..j][j - 1] == es[j - 1];
    }
  }

  /** The request that event `j` of a run brings in. */
  function Added(es: seq<Event>, j: nat): Option<Rq>
    requires j < |es|
  {
    Arrival(After(es[..j]), es[j])
  }

  lemma {:induction false} NotTimes(q: seq<Rq>, x: Rq)
    requires forall r :: r in q ==> Bare(r) != x
    ensures Times(q, x) == 0
  {
    if q != [] {
      NotTimes(q[1..], x);
    }
  }

  lemma NoneHeld(s: State, x: Rq)
    requires Inv(s) && Plain(x)
    requires x.epoch < s.completed || (s.Active() && s.ordseq.drain && x.epoch == s.completed)
    ensures Held(s, x) == 0
  {
    forall r | r in s.queue
      ensures Bare(r) != x
    {
      var i :| 0 <= i < |s.queue| && s.queue[i] == r;
      assert Keyed(r) ==> 8 * s.completed <= Key(r, s.completed);
    }
    NotTimes(s.queue, x);
  }

  /** The flushes and the barrier write are issued in order, each when it is the current step. */
  lemma StepsInOrder(es: seq<Event>, k: nat)
    requires Possible(es) && k < |es| && es[k].Fetch?
    requires After(es[..k]).queue != [] && !After(es[..k]).queue[0].Normal?
    ensures After(es[..k]).Active()
    ensures ReqSeq(After(es[..k]).orig, After(es[..k]).queue[0]) == CurSeq(After(es[..k]).ordseq)
  {
    hide Core, Step, CurSeq, Allowed, ReqSeq;
    PossiblePrefix(es, k);
    RunCore(es[..k]);
    ProxyIsCurrent(After(es[..k]));
  }

  /** The bit that the end of a flush or of the barrier write sets was clear. */
  lemma EachBitOnce(es: seq<Event>, k: nat)
    requires Possible(es) && k < |es| && es[k].Complete? && !es[k].r.Normal?
    ensures After(es[..k]).Active() && !Overlap(After(es[..k]).ordseq, BitOf(es[k].r))
  {
    hide Core, Step, Overlap;
    PossiblePrefix(es, k);
    RunCore(es[..k]);
    ProxyEndsCore(After(es[..k]), es[k].r);
  }

  /** How often a request like `x` came in, and how often one left. */
  function Arrived(es: seq<Event>, x: Rq): nat {
    if es == [] then 0
    else Arrived(es[..|es| - 1], x) + Count(Arrival(After(es[..|es| - 1]), es[|es| - 1]), x)
  }

  ghost function Departed(es: seq<Event>, x: Rq): nat
    requires Possible(es)
  {
    if es == [] then 0
    else Departed(es[..|es| - 1], x) + Departures(After(es[..|es| - 1]), es[|es| - 1], x)
  }

  /** Over a whole run, what came in is what is held and what left. */
  lemma {:induction false} RunConserved(es: seq<Event>, x: Rq)
    requires Possible(es) && x.Normal?
    ensures Arrived(es, x) == Held(After(es), x) + Departed(es, x)
  {
    hide Core, Enabled, Step, Held, Arrival, Departures;
    if es == [] {
      InitialHeld(x);
    } else {
      var init := es[..|es| - 1];
      RunConserved(init, x);
      RunCore(init);
      Conserved(After(init), es[|es| - 1], x);
    }
  }

  lemma InitialHeld(x: Rq)
    ensures Held(INITIAL, x) == 0
  {}

  /** Appending an event to a run. */
  lemma Recorded(es: seq<Event>, e: Event)
    requires Possible(es) && Enabled(After(es), e)
    ensures Possible(es + [e]) && After(es + [e]) == Step(After(es), e)
  {
    hide Inv, Step, Enabled;
    var fs := es + [e];
    assert fs[..|fs| - 1] == es;
  }
}
