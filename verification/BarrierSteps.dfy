/** What one barrier makes the driver do: its flushes and its write, each as often as the barrier asks for it. */
module BarrierSteps {
  import opened Options
  import opened BarrierModel
  import opened BarrierSafety
  import opened BarrierCore
  import opened BarrierRuns

  function Bit(o: OrdSeq, p: Rq): bool {
    match p
    case Pre => o.pre
    case Bar => o.bar
    case Post => o.post
    case _ => o.drain
  }

  /** How many internal requests `p` the driver holds. */
  function Out(s: State, p: Rq): nat { s.issued[p] + s.special[p] }

  predicate Takes(s: State, e: Event, p: Rq) { e.Fetch? && s.queue != [] && s.queue[0] == p }

  function N(b: bool): nat { if b then 1 else 0 }

  /** While the sequence is in progress: `p` has ended `done` times and is with the driver `out` times, and its bit
      says whether there is nothing more to do for it. */
  ghost predicate Tracks(s: State, p: Rq, wanted: bool, done: nat, out: int) {
    && s.Active() && Out(s, p) == out
    && if Bit(s.ordseq, p) then done == N(wanted) else wanted && done == 0
  }

  ghost predicate Ended(s: State, p: Rq, wanted: bool, done: nat, out: int) {
    !s.Active() && Out(s, p) == out == 0 && done == N(wanted)
  }

  ghost predicate Follows(s: State, t: State, p: Rq, wanted: bool, done: nat, out: int) {
    if t.completed == s.completed then Tracks(t, p, wanted, done, out)
    else t.completed == s.completed + 1 && Ended(t, p, wanted, done, out)
  }

  /** With its bit set, an internal request is not with the driver. */
  lemma NotOut(s: State, p: Rq)
    requires Kinds(s) && ProxiesOk(s) && !p.Normal? && (!s.Active() || Bit(s.ordseq, p))
    ensures Out(s, p) == 0
  {
    hide Queued;
  }

  lemma FinishFollows(s: State, t: State, bits: OrdSeq, p: Rq, wanted: bool, done: nat, out: int)
    requires t == CompleteSeq(s, bits) && !p.Normal? && s.Active() && s.ordseq.started
    requires Tracks(s.(ordseq := Or(s.ordseq, bits)), p, wanted, done, out)
    requires Kinds(s) && ProxiesOk(s.(ordseq := Or(s.ordseq, bits)))
    ensures Follows(s, t, p, wanted, done, out)
  {
    hide Kinds, ProxiesOk, CurSeq;
    var u := s.(ordseq := Or(s.ordseq, bits));
    CurSeqIsFirstIncomplete(u.ordseq);
    if CurSeq(u.ordseq) == DONE {
      KindsKept(s, u);
      NotOut(u, p);
    }
  }

  /** Events that set no bit. */
  lemma QuietKeeps(s: State, e: Event)
    requires Enabled(s, e) && !e.Complete? && !e.Start?
    ensures var t := Step(s, e); t.ordseq == s.ordseq && t.orig == s.orig && t.completed == s.completed
  {
    hide Insert, ReqSeq, CurSeq, Allowed, Taken, Remove;
    if e.Requeue? {
      RemoveKeeps(s, e.r);
    } else if e.Fetch? {
      TakenKeeps(s);
    }
  }

  lemma QuietOut(s: State, e: Event, p: Rq)
    requires Kinds(s) && Enabled(s, e) && !e.Complete? && !e.Start? && !p.Normal?
    ensures Out(Step(s, e), p) == Out(s, p) + N(Takes(s, e, p)) - N(e == Requeue(p))
  {
    hide Insert, ReqSeq, CurSeq, Allowed, Kinds, Remove;
    if e.Fetch? {
      TakenOut(s, p);
    } else if e.Requeue? {
      RemoveOut(s, e.r, p);
    }
  }

  lemma TakenOut(s: State, p: Rq)
    requires s.queue != [] && !p.Normal?
    ensures Out(Taken(s), p) == Out(s, p) + N(s.queue[0] == p)
  {}

  lemma RemoveOut(s: State, r: Rq, p: Rq)
    requires Kinds(s) && (r in s.issued || r in s.special) && !p.Normal?
    ensures Out(Remove(s, r), p) == Out(s, p) - N(r == p)
  {}

  lemma QuietFollows(s: State, e: Event, p: Rq, wanted: bool, done: nat, out: int)
    requires Core(s) && Enabled(s, e) && !e.Complete? && !e.Start? && !p.Normal? && Tracks(s, p, wanted, done, out)
    ensures Follows(s, Step(s, e), p, wanted, done, out + N(Takes(s, e, p)) - N(e == Requeue(p)))
  {
    hide Kinds, Once, ProxiesOk, Step, Enabled, Out, Bit;
    QuietKeeps(s, e);
    QuietOut(s, e, p);
  }

  lemma CompleteFollows(s: State, e: Event, p: Rq, wanted: bool, done: nat, out: int)
    requires Core(s) && Enabled(s, e) && e.Complete? && !p.Normal? && Tracks(s, p, wanted, done, out)
    ensures Follows(s, Step(s, e), p, wanted, done + N(e.r == p), out - N(e.r == p))
  {
    hide Kinds, Once, ProxiesOk, CurSeq, CompleteSeq, Queued, Overlap, Remove, Drained, Out, Bit, BitOf, Or;
    var r := Remove(s, e.r);
    RemoveKeeps(s, e.r);
    RemoveOut(s, e.r, p);
    RemoveKinds(s, e.r);
    if e.r.Normal? {
      RemoveShrinks(s, e.r);
      ProxiesKept(s, r);
      DrainedFollows(r, p, wanted, done, out);
    } else {
      ProxyEndsCore(s, e.r);
      OneEnds(s, e.r, p);
      SameOut(r, r.(ordseq := Or(s.ordseq, BitOf(e.r))), p);
      FinishFollows(r, Step(s, e), BitOf(e.r), p, wanted, done + N(e.r == p), out - N(e.r == p));
    }
  }

  lemma SameOut(s: State, t: State, p: Rq)
    requires s.issued == t.issued && s.special == t.special
    ensures Out(s, p) == Out(t, p)
  {}

  lemma DrainedFollows(s: State, p: Rq, wanted: bool, done: nat, out: int)
    requires Core(s) && !p.Normal? && Tracks(s, p, wanted, done, out)
    ensures Follows(s, Drained(s), p, wanted, done, out)
  {
    hide Kinds, Once, CurSeq, CompleteSeq, Queued, ReqSeq;
    if Drained(s) != s {
      FinishFollows(s, Drained(s), DRAIN_BIT, p, wanted, done, out);
    }
  }

  /** The end of one internal request changes its own bit and count. */
  lemma OneEnds(s: State, r: Rq, p: Rq)
    requires Core(s) && !r.Normal? && !p.Normal? && (r in s.issued || r in s.special)
    ensures !Bit(s.ordseq, r)
    ensures Out(Remove(s, r), p) == Out(s, p) - N(r == p)
    ensures Bit(Or(s.ordseq, BitOf(r)), p) == (Bit(s.ordseq, p) || r == p)
  {
    hide Once, Queued;
  }

  lemma StartFollows(s: State, e: Event, p: Rq)
    requires Core(s) && Enabled(s, e) && e.Start? && !p.Normal?
    ensures Follows(s, Step(s, e), p, Wanted(s.queue[0], e.preflush, e.postflush, p), 0, 0)
  {
    hide Kinds, Once, ProxiesOk, Queued, CurSeq, Push, CompleteSeq;
    var b := s.queue[0];
    var doPost := e.postflush && b.sectors != 0;
    var q := Push(e.preflush, Pre, Push(b.sectors != 0, Bar, Push(doPost, Post, s.queue[1..])));
    StartQueue(s, q, e.preflush, b.sectors != 0, doPost);
    var bits := OrdSeq(false, s.issued == multiset{}, !e.preflush, b.sectors == 0, !doPost);
    var u := s.(queue := q, orig := Some(b), ordseq := IDLE.(started := true));
    StartProxies(s, u.(ordseq := Or(u.ordseq, bits)), e.preflush, b.sectors != 0, doPost);
    KindsKept(s, u);
    NotOut(s, p);
    FinishFollows(u, Step(s, e), bits, p, Wanted(b, e.preflush, e.postflush, p), 0, 0);
  }

  /** What a barrier asks for: a flush before it if its queue flushes, its write if it has sectors, and a flush after
      it if it has and its queue flushes. */
  predicate Wanted(b: Rq, preflush: bool, postflush: bool, p: Rq)
    requires b.Normal?
  {
    match p
    case Pre => preflush
    case Bar => b.sectors != 0
    case Post => postflush && b.sectors != 0
    case _ => false
  }

  // Whole runs

  /** How often `p` ends, is taken, and is put back, from event `i` of a run to before event `k`. */
  function Ends(es: seq<Event>, i: nat, k: nat, p: Rq): nat
    requires i <= k <= |es|
  {
    if i == k then 0 else Ends(es, i, k - 1, p) + N(es[k - 1] == Complete(p))
  }

  function Fetches(es: seq<Event>, i: nat, k: nat, p: Rq): nat
    requires i <= k <= |es|
  {
    if i == k then 0 else Fetches(es, i, k - 1, p) + N(Takes(After(es[..k - 1]), es[k - 1], p))
  }

  function PutBack(es: seq<Event>, i: nat, k: nat, p: Rq): nat
    requires i <= k <= |es|
  {
    if i == k then 0 else PutBack(es, i, k - 1, p) + N(es[k - 1] == Requeue(p))
  }

  /** Event `i` starts a barrier, which does not end before event `k - 1`. */
  ghost predicate InProgress(es: seq<Event>, i: nat, k: nat)
    requires i < k <= |es|
  {
    && Possible(es) && es[i].Start?
    && forall j :: i < j < k ==> After(es[..j]).completed == After(es[..i]).completed
  }

  lemma AfterNext(es: seq<Event>, k: nat)
    requires Possible(es) && k < |es|
    ensures Enabled(After(es[..k]), es[k]) && After(es[..k + 1]) == Step(After(es[..k]), es[k]) && Core(After(es[..k]))
  {
    hide Core, Step, Enabled;
    PossiblePrefix(es, k);
    RunCore(es[..k]);
    assert es[..k + 1] == es[..k] + [es[k]];
    Recorded(es[..k], es[k]);
  }

  lemma StepFollows(s: State, e: Event, p: Rq, wanted: bool, done: nat, out: int)
    requires Core(s) && Enabled(s, e) && !p.Normal? && Tracks(s, p, wanted, done, out)
    ensures Follows(s, Step(s, e), p, wanted, done + N(e == Complete(p)), out + N(Takes(s, e, p)) - N(e == Requeue(p)) - N(e == Complete(p)))
  {
    hide Core, Step, Follows;
    if e.Complete? {
      CompleteFollows(s, e, p, wanted, done, out);
    } else {
      NotStart(s, e);
      QuietFollows(s, e, p, wanted, done, out);
    }
  }

  lemma NotStart(s: State, e: Event)
    requires s.Active() && Enabled(s, e)
    ensures !e.Start?
  {}

  lemma {:induction false} RunFollows(es: seq<Event>, i: nat, k: nat, p: Rq)
    requires i < k <= |es| && InProgress(es, i, k) && !p.Normal?
    ensures After(es[..i]).queue != [] && After(es[..i]).queue[0].Normal?
    ensures var s := After(es[..i]); var done := Ends(es, i, k, p);
      Follows(s, After(es[..k]), p, Wanted(s.queue[0], es[i].preflush, es[i].postflush, p), done,
              Fetches(es, i, k, p) - PutBack(es, i, k, p) - done)
    decreases k
  {
    hide Core, Step, Possible, Tracks, Ended, Wanted, After, Enabled, Ends, Fetches, PutBack, Takes;
    var s := After(es[..i]);
    AfterNext(es, i);
    StartHead(s, es[i]);
    Counted(es, i, k, p);
    if k == i + 1 {
      Uncounted(es, i, p);
      StartFollows(s, es[i], p);
    } else {
      RunFollows(es, i, k - 1, p);
      AfterNext(es, k - 1);
      var wanted := Wanted(s.queue[0], es[i].preflush, es[i].postflush, p);
      var done := Ends(es, i, k - 1, p);
      StepFollows(After(es[..k - 1]), es[k - 1], p, wanted, done, Fetches(es, i, k - 1, p) - PutBack(es, i, k - 1, p) - done);
    }
  }

  lemma Counted(es: seq<Event>, i: nat, k: nat, p: Rq)
    requires i < k <= |es|
    ensures Ends(es, i, k, p) == Ends(es, i, k - 1, p) + N(es[k - 1] == Complete(p))
    ensures Fetches(es, i, k, p) == Fetches(es, i, k - 1, p) + N(Takes(After(es[..k - 1]), es[k - 1], p))
    ensures PutBack(es, i, k, p) == PutBack(es, i, k - 1, p) + N(es[k - 1] == Requeue(p))
  {}

  lemma Uncounted(es: seq<Event>, i: nat, p: Rq)
    requires i < |es| && es[i].Start?
    ensures Ends(es, i, i, p) == Fetches(es, i, i, p) == PutBack(es, i, i, p) == 0
    ensures !Takes(After(es[..i]), es[i], p)
  {}

  lemma StartHead(s: State, e: Event)
    requires Enabled(s, e) && e.Start?
    ensures s.queue != [] && s.queue[0].Normal?
  {}

  /** From the event that starts a barrier to the one that ends it, the driver completes the flush before it exactly
      once if the queue asks for one, the barrier's own write exactly once if it has sectors, and the flush after it
      exactly once if the queue asks for one and there was a write; and it takes each of them once for every time it
      puts it back or completes it. */
  lemma EachStepOnce(es: seq<Event>, i: nat, k: nat)
    requires i < k <= |es| && InProgress(es, i, k) && After(es[..k]).completed != After(es[..i]).completed
    ensures After(es[..i]).queue != [] && After(es[..i]).queue[0].Normal?
    ensures var b := After(es[..i]).queue[0];
      && Ends(es, i, k, Pre) == N(es[i].preflush)
      && Ends(es, i, k, Bar) == N(b.sectors != 0)
      && Ends(es, i, k, Post) == N(es[i].postflush && b.sectors != 0)
    ensures forall p: Rq :: !p.Normal? ==> Fetches(es, i, k, p) == PutBack(es, i, k, p) + Ends(es, i, k, p)
    ensures After(es[..k]).completed == After(es[..i]).completed + 1
  {
    hide Core, Step, Possible, After, Ends, Fetches, PutBack, InProgress;
    RunFollows(es, i, k, Pre);
    RunFollows(es, i, k, Bar);
    RunFollows(es, i, k, Post);
    forall p: Rq | !p.Normal?
      ensures Fetches(es, i, k, p) == PutBack(es, i, k, p) + Ends(es, i, k, p)
    {
      RunFollows(es, i, k, p);
    }
  }

  /** While a barrier is in progress none of its steps has ended more often than that. */
  lemma NoStepTwice(es: seq<Event>, i: nat, k: nat, p: Rq)
    requires i < k <= |es| && InProgress(es, i, k) && !p.Normal?
    ensures Ends(es, i, k, p) <= 1 && 0 <= Fetches(es, i, k, p) - PutBack(es, i, k, p) - Ends(es, i, k, p) <= 1
  {
    hide Core, Step, Possible, After, Ends, Fetches, PutBack, Wanted;
    RunFollows(es, i, k, p);
    if After(es[..k]).completed == After(es[..i]).completed {
      OutAtMostOne(es, k, p);
    }
  }

  lemma OutAtMostOne(es: seq<Event>, k: nat, p: Rq)
    requires Possible(es) && k <= |es| && !p.Normal?
    ensures Out(After(es[..k]), p) <= 1
  {
    hide Step, Possible, After, Once, Queued;
    PossiblePrefix(es, k);
    RunCore(es[..k]);
  }
}
