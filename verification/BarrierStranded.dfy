/** Exactly which insertions let an earlier request be stranded behind a barrier, and what that breaks. */
module BarrierStranded {
  import opened Options
  import opened BarrierModel
  import opened BarrierSafety
  import opened BarrierCore
  import opened BarrierRuns
  import opened BarrierIff
  import opened BarrierEarlier
  import Order = BarrierOrder

  /** The queue is wedged after `k` events. */
  ghost predicate WedgedAt(es: seq<Event>, k: nat) { k <= |es| && Wedged(After(es[..k])) }

  /** Event `k` hands the driver a flush or the write of the barrier of event `i`, and the request that event `j`
      queued before it is not done. */
  ghost predicate FlushedEarly(es: seq<Event>, j: nat, i: nat, k: nat) {
    && j < i < k < |es| && Order.FsBarrier(es[i]) && Added(es, j).Some? && Plain(Added(es, j).value)
    && es[k].Fetch? && InProgress(After(es[..k]), Barriers(es[..i]))
    && After(es[..k]).queue != [] && !After(es[..k]).queue[0].Normal?
    && Held(After(es[..k]), Added(es, j).value) > 0
  }

  /** After `k` events the barrier of event `i` is complete, and the request that event `j` queued before it is not. */
  ghost predicate LeftBehind(es: seq<Event>, j: nat, i: nat, k: nat) {
    && j < i < k <= |es| && Order.FsBarrier(es[i]) && Added(es, j).Some? && Plain(Added(es, j).value)
    && After(es[..k]).completed > Barriers(es[..i]) && Held(After(es[..k]), Added(es, j).value) > 0
  }

  ghost predicate CanWedge(ins: seq<Event>) {
    exists es, k: nat :: Possible(es) && Insertions(es) == ins && WedgedAt(es, k)
  }

  ghost predicate CanFlushEarly(ins: seq<Event>) {
    exists es, j: nat, i: nat, k: nat :: Possible(es) && Insertions(es) == ins && FlushedEarly(es, j, i, k)
  }

  ghost predicate CanLeaveBehind(ins: seq<Event>) {
    exists es, j: nat, i: nat, k: nat :: Possible(es) && Insertions(es) == ins && LeftBehind(es, j, i, k)
  }

  ghost predicate CanBeLate(ins: seq<Event>) {
    exists es, k: nat :: Possible(es) && Insertions(es) == ins && LateAt(es, k)
  }

  ghost predicate LateAt(es: seq<Event>, k: nat) { k <= |es| && Late(After(es[..k])) }

  // Faithful insertions

  lemma PrefixFaithful(es: seq<Event>, k: nat)
    requires Possible(es) && Faithful(Insertions(es)) && k <= |es|
    ensures Possible(es[..k]) && Faithful(Insertions(es[..k]))
  {
    hide Possible, Insertions, Faithful;
    PossiblePrefix(es, k);
    var more := InsertionsPrefix(es, k);
    FaithfulPrefix(Insertions(es[..k]), more);
  }

  lemma FaithfulHolds(ins: seq<Event>)
    requires Faithful(ins)
    ensures !CanWedge(ins) && !CanFlushEarly(ins) && !CanLeaveBehind(ins)
  {
    hide Possible, After, Insertions, Faithful, Added, Held, Wedged, Barriers;
    forall es, k: nat | Possible(es) && Insertions(es) == ins
      ensures !WedgedAt(es, k)
    {
      if k <= |es| {
        PrefixFaithful(es, k);
        RunProgress(es[..k]);
      }
    }
    forall es, j: nat, i: nat, k: nat | Possible(es) && Insertions(es) == ins
      ensures !FlushedEarly(es, j, i, k)
    {
      if FlushedEarly(es, j, i, k) {
        BarrierWaits(es, j, i, k);
      }
    }
    forall es, j: nat, i: nat, k: nat | Possible(es) && Insertions(es) == ins
      ensures !LeftBehind(es, j, i, k)
    {
      if LeftBehind(es, j, i, k) {
        PrefixFaithful(es, k);
        assert es[..k][..j] == es[..j] && es[..k][..i] == es[..i] && es[..k][j] == es[j] && es[..k][i] == es[i];
        AddedPrefix(es, j, k);
        EarlierRequestsDone(es[..k], j, i);
      }
    }
  }

  lemma AddedPrefix(es: seq<Event>, j: nat, k: nat)
    requires j < k <= |es|
    ensures Added(es[..k], j) == Added(es, j)
  {
    hide After, Arrival;
    assert es[..k][..j] == es[..j] && es[..k][j] == es[j];
  }

  // A run in which a request is stranded

  /** Request `r` is with the driver, and all else is done, except requests that are not file system ones. */
  ghost predicate Holding(s: State, r: Rq) {
    && s == State([], multiset{}, multiset{r}, s.special, IDLE, None, s.ordcolor, s.added, s.added)
    && Plain(r) && !r.stop && r.epoch == s.added
    && forall x :: x in s.special ==> x.Normal? && !x.fs && !x.stop
  }

  lemma HoldSorted(s: State, e: Event)
    requires Quiet(s) && e.AddSorted?
    ensures var r := Normal(e.id, true, false, e.write, e.sector, e.sectors, s.ordcolor, false, s.added);
      && Arrival(s, e) == Some(r) && Enabled(s, e) && Enabled(Step(s, e), Dispatch(r, 0)) && Step(Step(s, e), Dispatch(r, 0)) == s.(queue := [r])
      && Enabled(s.(queue := [r]), Fetch) && Holding(Step(s.(queue := [r]), Fetch), r)
  {
    QuietSorted(s, e);
  }

  lemma HoldBack(s: State, e: Event)
    requires Quiet(s) && e.AddBack? && PlainInsertion(e)
    ensures Enabled(s, e) && Enabled(Step(s, e), Fetch) && Arrival(s, e).Some?
    ensures Holding(Step(Step(s, e), Fetch), Arrival(s, e).value)
  {}

  /** The request comes in and is taken. */
  lemma Hold(es: seq<Event>, e: Event) returns (all: seq<Event>, r: Rq)
    requires Possible(es) && Quiet(After(es)) && PlainInsertion(e)
    ensures es + [e] <= all && Possible(all) && Insertions(all) == Insertions(es) + [e]
    ensures Arrival(After(es), e) == Some(r) && Holding(After(all), r)
  {
    hide Possible, After, Step, Enabled, Insertions, Quiet, Holding, Arrival;
    var s := After(es);
    if e.AddSorted? {
      HoldSorted(s, e);
      r := Normal(e.id, true, false, e.write, e.sector, e.sectors, s.ordcolor, false, s.added);
      Extend(es, e);
      Extend(es + [e], Dispatch(r, 0));
      Extend(es + [e] + [Dispatch(r, 0)], Fetch);
      all := es + [e] + [Dispatch(r, 0)] + [Fetch];
    } else {
      HoldBack(s, e);
      r := Arrival(s, e).value;
      Extend(es, e);
      Extend(es + [e], Fetch);
      all := es + [e] + [Fetch];
    }
  }

  /** A file system request that the driver takes meanwhile can be done at once. */
  lemma OneMoreDone(s: State, r: Rq, x: Rq)
    requires Holding(s, r) && Plain(x) && !x.stop
    ensures var t := s.(issued := multiset{r, x}); Enabled(t, Complete(x)) && Step(t, Complete(x)) == s
  {
    hide CompleteSeq, CurSeq, ReqSeq;
    assert multiset{r, x} - multiset{x} == multiset{r};
  }

  lemma OneMoreTaken(s: State, r: Rq, x: Rq)
    requires Holding(s, r) && Plain(x)
    ensures var t := s.(queue := [x]); Enabled(t, Fetch) && Step(t, Fetch) == s.(issued := multiset{r, Bare(x)})
  {}

  lemma OtherSorted(s: State, r: Rq, e: Event)
    requires Holding(s, r) && e.AddSorted?
    ensures var x := Normal(e.id, true, false, e.write, e.sector, e.sectors, s.ordcolor, false, s.added);
      Enabled(s, e) && Enabled(Step(s, e), Dispatch(x, 0)) && Step(Step(s, e), Dispatch(x, 0)) == s.(queue := [x])
  {
    var x := Normal(e.id, true, false, e.write, e.sector, e.sectors, s.ordcolor, false, s.added);
    assert s.sorted + multiset{x} == multiset{x} && multiset{x} - multiset{x} == multiset{};
  }

  lemma OtherPlain(s: State, r: Rq, e: Event)
    requires Holding(s, r) && e.AddBack? && PlainInsertion(e)
    ensures Enabled(s, e) && |Step(s, e).queue| == 1 && Step(s, e) == s.(queue := Step(s, e).queue)
    ensures Plain(Step(s, e).queue[0])
  {}

  lemma OtherKept(s: State, r: Rq, e: Event)
    requires Holding(s, r) && Insertion(e) && !FsInsertion(e)
    ensures Enabled(s, e) && Enabled(Step(s, e), Fetch) && Holding(Step(Step(s, e), Fetch), r)
    ensures Step(Step(s, e), Fetch).special != multiset{}
  {}

  /** Meanwhile another request comes in: a file system one is done at once, another one is kept by the driver. */
  lemma HoldOn(es: seq<Event>, e: Event, r: Rq) returns (all: seq<Event>)
    requires Possible(es) && Holding(After(es), r) && Insertion(e) && !Order.FsBarrier(e)
    ensures es <= all && Possible(all) && Insertions(all) == Insertions(es) + [e] && Holding(After(all), r)
    ensures After(es).special != multiset{} || !FsInsertion(e) ==> After(all).special != multiset{}
  {
    hide Possible, After, Step, Enabled, Insertions, Holding;
    var s := After(es);
    if e.AddSorted? {
      OtherSorted(s, r, e);
      var x := Normal(e.id, true, false, e.write, e.sector, e.sectors, s.ordcolor, false, s.added);
      OneMoreTaken(s, r, x);
      OneMoreDone(s, r, x);
      Extend(es, e);
      Extend(es + [e], Dispatch(x, 0));
      Extend(es + [e] + [Dispatch(x, 0)], Fetch);
      Extend(es + [e] + [Dispatch(x, 0)] + [Fetch], Complete(x));
      all := es + [e] + [Dispatch(x, 0)] + [Fetch] + [Complete(x)];
    } else if FsInsertion(e) {
      OtherPlain(s, r, e);
      var x := Bare(Step(s, e).queue[0]);
      assert Step(s, e).queue == [Step(s, e).queue[0]];
      OneMoreTaken(s, r, Step(s, e).queue[0]);
      OneMoreDone(s, r, x);
      Extend(es, e);
      Extend(es + [e], Fetch);
      Extend(es + [e] + [Fetch], Complete(x));
      all := es + [e] + [Fetch] + [Complete(x)];
    } else {
      OtherKept(s, r, e);
      Extend(es, e);
      Extend(es + [e], Fetch);
      all := es + [e] + [Fetch];
    }
  }

  /** Up to insertion `m`, with request `p` held by the driver. */
  lemma {:induction false} HeldUpto(ins: seq<Event>, p: int, q: int, m: int) returns (es: seq<Event>, j: nat, r: Rq)
    requires EndsEpoch(ins, p, q) && p < m <= q && forall x :: 0 <= x < |ins| ==> Insertion(ins[x])
    ensures Possible(es) && Insertions(es) == ins[..m] && j < |es| && es[j] == ins[p] && Insertions(es[..j]) == ins[..p]
    ensures Arrival(After(es[..j]), es[j]) == Some(r) && Holding(After(es), r)
    ensures Hards(ins[..m]) > Hards(ins[..p]) ==> After(es).special != multiset{}
    decreases m
  {
    hide Possible, After, Step, Enabled, Insertions, Quiet, Holding, Arrival, Hards;
    if m == p + 1 {
      var es0 := Eager(ins[..p]);
      es, r := Hold(es0, ins[p]);
      j := |es0|;
      assert es[..j] == es0 && ins[..p] + [ins[p]] == ins[..m];
      HardsNext(ins, p);
    } else {
      var es0;
      es0, j, r := HeldUpto(ins, p, q, m - 1);
      es := HoldOn(es0, ins[m - 1], r);
      assert es[..j] == es0[..j] && es[j] == es0[j] && ins[..m - 1] + [ins[m - 1]] == ins[..m];
      HardsNext(ins, m - 1);
    }
  }

  lemma HardsNext(ins: seq<Event>, m: nat)
    requires m < |ins|
    ensures Hards(ins[..m + 1]) == Hards(ins[..m]) + if HardInsertion(ins[m]) then 1 else 0
  {
    assert ins[..m + 1][..m] == ins[..m];
  }

  /** The sequence of barrier `b` waits for request `r`, which has the other colour. */
  ghost predicate Stalled(s: State, b: Rq, r: Rq) {
    && s == State(if b.Normal? && b.sectors != 0 then [Pre, Bar] else [Pre], multiset{}, multiset{r}, s.special,
      OrdSeq(true, false, false, b.Normal? && b.sectors == 0, true), Some(b), s.ordcolor, s.added, s.completed)
    && b.Barrier() && b.epoch == s.completed && Plain(r) && !r.stop && r.color != b.color
    && forall x :: x in s.special ==> x.Normal? && !x.fs && !x.stop
  }

  lemma HoldingStalls(s: State, r: Rq, e: Event)
    requires Holding(s, r) && Order.FsBarrier(e) && s.ordcolor != r.color
    ensures Enabled(s, e) && Enabled(Step(s, e), Start(true, false)) && |Step(s, e).queue| == 1
    ensures Stalled(Step(Step(s, e), Start(true, false)), Step(s, e).queue[0], r)
    ensures Step(Step(s, e), Start(true, false)).special == s.special
  {
    hide CurSeq;
    var b := Step(s, e).queue[0];
    CurSeqIsFirstIncomplete(OrdSeq(true, false, false, b.sectors == 0, true));
    assert r in s.issued;
    assert Step(s, e).queue[1..] == [];
  }

  lemma StalledCompletes(s: State, b: Rq, r: Rq, x: Rq)
    requires Stalled(s, b, r) && x in s.special
    ensures Enabled(s, Complete(x)) && Step(s, Complete(x)) == s.(special := s.special - multiset{x})
    ensures Stalled(Step(s, Complete(x)), b, r)
  {
    hide CurSeq, CompleteSeq;
    assert r in s.issued;
  }

  /** All but the request held completes. */
  lemma {:induction false} Cleared(es: seq<Event>, b: Rq, r: Rq) returns (all: seq<Event>)
    requires Possible(es) && Stalled(After(es), b, r)
    ensures es <= all && Possible(all) && Insertions(all) == Insertions(es)
    ensures Stalled(After(all), b, r) && After(all).special == multiset{}
    decreases |After(es).special|
  {
    hide Possible, After, Step, Enabled, Insertions, Stalled;
    var s := After(es);
    if s.special == multiset{} {
      all := es;
    } else {
      var x :| x in s.special;
      StalledCompletes(s, b, r, x);
      Extend(es, Complete(x));
      all := Cleared(es + [Complete(x)], b, r);
    }
  }

  /** The request comes back, and goes behind the steps of the barrier. */
  ghost predicate Back(s: State, b: Rq, r: Rq) {
    && s == State(if b.Normal? && b.sectors != 0 then [Pre, Bar, Stopped(r)] else [Pre, Stopped(r)], multiset{}, multiset{}, s.special,
      OrdSeq(true, false, false, b.Normal? && b.sectors == 0, true), Some(b), s.ordcolor, s.added, s.completed)
    && b.Barrier() && b.epoch == s.completed && Plain(r) && !r.stop && r.color != b.color
    && forall x :: x in s.special ==> x.Normal? && !x.fs && !x.stop
  }

  lemma StalledComesBack(s: State, b: Rq, r: Rq)
    requires Stalled(s, b, r)
    ensures Enabled(s, Requeue(r)) && Back(Step(s, Requeue(r)), b, r) && Step(s, Requeue(r)).special == s.special
  {
    hide CurSeq;
    var n := |s.queue|;
    assert r in s.issued && ReqSeq(s.orig, r) == DONE;
    assert RequeueSlot(s, r, n) == n;
    assert ReqSeq(s.orig, s.queue[0]) == PREFLUSH && RequeueSlot(s, r, 0) == RequeueSlot(s, r, 1);
    if n == 2 {
      assert ReqSeq(s.orig, s.queue[1]) == BAR && RequeueSlot(s, r, 1) == RequeueSlot(s, r, 2);
    }
    assert multiset{r} - multiset{r} == multiset{};
    assert s.queue[..n] == s.queue && s.queue[n..] == [];
  }

  lemma BackWedges(s: State, b: Rq, r: Rq)
    requires Back(s, b, r) && s.special == multiset{}
    ensures Wedged(s)
  {
    hide CurSeq;
    CurSeqIsFirstIncomplete(s.ordseq);
  }

  /** Another completion ends the wait, and the flush goes. */
  lemma BackDrains(s: State, b: Rq, r: Rq, x: Rq)
    requires Back(s, b, r) && x in s.special
    ensures Enabled(s, Complete(x))
    ensures Step(s, Complete(x)) == s.(special := s.special - multiset{x}, ordseq := s.ordseq.(drain := true))
  {
    hide CurSeq;
    CurSeqIsFirstIncomplete(s.ordseq);
    CurSeqIsFirstIncomplete(s.ordseq.(drain := true));
  }

  ghost predicate Flushing(s: State, b: Rq, r: Rq) {
    && s == State(if b.Normal? && b.sectors != 0 then [Pre, Bar, Stopped(r)] else [Pre, Stopped(r)], multiset{}, multiset{}, s.special,
      OrdSeq(true, true, false, b.Normal? && b.sectors == 0, true), Some(b), s.ordcolor, s.added, s.completed)
    && b.Barrier() && b.epoch == s.completed && Plain(r) && !r.stop
  }

  lemma FlushGoes(s: State, b: Rq, r: Rq)
    requires Flushing(s, b, r)
    ensures Enabled(s, Fetch) && Step(s, Fetch) == s.(queue := s.queue[1..], special := s.special + multiset{Pre})
    ensures InProgress(s, s.completed) && Held(s, r) > 0
  {
    hide CurSeq;
    CurSeqIsFirstIncomplete(s.ordseq);
    StillHeld(s, |s.queue| - 1, r);
  }

  lemma StillHeld(s: State, y: nat, r: Rq)
    requires y < |s.queue| && s.queue[y] == Stopped(r) && r.Normal? && !r.stop
    ensures Held(s, r) > 0
  {
    TimesAt(s.queue, y, r);
  }

  lemma {:induction false} TimesAt(q: seq<Rq>, y: nat, x: Rq)
    requires y < |q| && Bare(q[y]) == x
    ensures Times(q, x) > 0
  {
    if y > 0 {
      TimesAt(q[1..], y - 1, x);
    }
  }

  lemma EmptyEnds(s: State, b: Rq, r: Rq)
    requires Flushing(s, b, r) && b.sectors == 0
    ensures var t := s.(queue := s.queue[1..], special := s.special + multiset{Pre});
      && Enabled(t, Complete(Pre)) && Step(t, Complete(Pre)).completed == s.completed + 1 && Held(Step(t, Complete(Pre)), r) > 0
  {
    hide CurSeq;
    CurSeqIsFirstIncomplete(s.ordseq);
    CurSeqIsFirstIncomplete(s.ordseq.(pre := true));
    var t := s.(queue := s.queue[1..], special := s.special + multiset{Pre});
    assert Pre in t.special;
    var u := Step(t, Complete(Pre));
    assert u.queue == [Stopped(r)];
    StillHeld(u, 0, r);
  }

  lemma WriteEnds(s: State, b: Rq, r: Rq)
    requires Flushing(s, b, r) && b.sectors != 0
    ensures var t := s.(queue := s.queue[1..], special := s.special + multiset{Pre});
      && Enabled(t, Complete(Pre)) && var u := Step(t, Complete(Pre));
      && Enabled(u, Fetch) && var v := Step(u, Fetch);
      && Enabled(v, Complete(Bar)) && Step(v, Complete(Bar)).completed == s.completed + 1 && Held(Step(v, Complete(Bar)), r) > 0
  {
    hide CurSeq;
    CurSeqIsFirstIncomplete(s.ordseq);
    CurSeqIsFirstIncomplete(s.ordseq.(pre := true));
    var t := s.(queue := s.queue[1..], special := s.special + multiset{Pre});
    assert Pre in t.special;
    var u := s.(queue := s.queue[1..], ordseq := s.ordseq.(pre := true));
    assert t.special - multiset{Pre} == s.special;
    assert Step(t, Complete(Pre)) == u;
    WriteGoes(u, b, r);
  }

  lemma WriteGoes(u: State, b: Rq, r: Rq)
    requires u == State([Bar, Stopped(r)], multiset{}, multiset{}, u.special, OrdSeq(true, true, true, false, true), Some(b), u.ordcolor, u.added, u.completed)
    requires r.Normal? && !r.stop
    ensures Enabled(u, Fetch) && Enabled(Step(u, Fetch), Complete(Bar))
    ensures var w := Step(Step(u, Fetch), Complete(Bar)); w.completed == u.completed + 1 && Held(w, r) > 0
  {
    hide CurSeq;
    CurSeqIsFirstIncomplete(u.ordseq);
    CurSeqIsFirstIncomplete(u.ordseq.(bar := true));
    var v := u.(queue := [Stopped(r)], issued := multiset{Bar});
    assert Enabled(u, Fetch) && Step(u, Fetch) == v;
    assert v.issued - multiset{Bar} == multiset{};
    var w := Step(v, Complete(Bar));
    assert w.queue == [Stopped(r)];
    StillHeld(w, 0, r);
  }

  /** At the barrier the colour is not that of the request. */
  lemma OtherColourNow(es: seq<Event>, j: nat, ins: seq<Event>, p: int, q: int, r: Rq)
    requires Possible(es) && j < |es| && 0 <= p < q < |ins| && OddTurns(ins, p, q)
    requires Insertions(es) == ins[..q] && Insertions(es[..j]) == ins[..p]
    requires Arrival(After(es[..j]), es[j]) == Some(r) && Holding(After(es), r)
    ensures After(es).ordcolor != r.color
  {
    hide Possible, After, Insertions, Hards, Barriers;
    PossiblePrefix(es, j);
    ColourIsParity(es);
    ColourIsParity(es[..j]);
    EpochIsBarriers(es);
    EpochIsBarriers(es[..j]);
    HardsGrow(ins, p, q);
  }

  /** The run up to the stalled barrier. */
  lemma StallRun(ins: seq<Event>, p: int, q: int) returns (es: seq<Event>, j: nat, i: nat, b: Rq, r: Rq)
    requires EndsEpoch(ins, p, q) && OddTurns(ins, p, q) && forall x :: 0 <= x < |ins| ==> Insertion(ins[x])
    ensures Possible(es) && Insertions(es) == ins[..q + 1] && j < i < |es| && Order.FsBarrier(es[i])
    ensures Added(es, j) == Some(r) && Stalled(After(es), b, r) && b.epoch == Barriers(es[..i]) && After(es).special != multiset{}
  {
    hide Possible, After, Step, Enabled, Insertions, Holding, Stalled, Arrival, Hards, Barriers;
    var es0;
    es0, j, r := HeldUpto(ins, p, q, q);
    i := |es0|;
    OtherColourNow(es0, j, ins, p, q, r);
    HardsGrow(ins, p, q);
    var s := After(es0);
    HoldingStalls(s, r, ins[q]);
    b := Step(s, ins[q]).queue[0];
    Extend(es0, ins[q]);
    Extend(es0 + [ins[q]], Start(true, false));
    es := es0 + [ins[q]] + [Start(true, false)];
    assert es[..j] == es0[..j] && es[j] == es0[j] && es[..i] == es0 && ins[..q] + [ins[q]] == ins[..q + 1];
    EpochIsBarriers(es0);
    StalledEpoch(s, r, ins[q]);
  }

  lemma StalledEpoch(s: State, r: Rq, e: Event)
    requires Holding(s, r) && Order.FsBarrier(e)
    ensures Step(s, e).queue[0].Normal? && Step(s, e).queue[0].epoch == s.added
  {}

  lemma Rest(ins: seq<Event>, q: nat, es: seq<Event>) returns (all: seq<Event>)
    requires q < |ins| && Possible(es) && Insertions(es) == ins[..q + 1] && forall x :: 0 <= x < |ins| ==> Insertion(ins[x])
    ensures es <= all && Possible(all) && Insertions(all) == ins
  {
    hide Possible, After, Insertions;
    all := Padded(es, ins[q + 1..]);
    assert ins[..q + 1] + ins[q + 1..] == ins;
  }

  lemma StrandingWedges(ins: seq<Event>, p: int, q: int)
    requires EndsEpoch(ins, p, q) && OddTurns(ins, p, q) && forall x :: 0 <= x < |ins| ==> Insertion(ins[x])
    ensures CanWedge(ins)
  {
    hide Possible, After, Step, Enabled, Insertions, Stalled, Back, Wedged, OddTurns, Added, Barriers;
    var es0, j, i, b, r := StallRun(ins, p, q);
    var es1 := Cleared(es0, b, r);
    StalledComesBack(After(es1), b, r);
    Extend(es1, Requeue(r));
    var es2 := es1 + [Requeue(r)];
    BackWedges(After(es2), b, r);
    var es := Rest(ins, q, es2);
    assert es[..|es2|] == es2;
    assert WedgedAt(es, |es2|);
  }

  /** The flush is about to go, with the request stranded behind it. */
  lemma FlushRun(ins: seq<Event>, p: int, q: int) returns (es: seq<Event>, j: nat, i: nat, b: Rq, r: Rq)
    requires EndsEpoch(ins, p, q) && OddTurns(ins, p, q) && forall x :: 0 <= x < |ins| ==> Insertion(ins[x])
    ensures Possible(es) && Insertions(es) == ins[..q + 1] && j < i < |es| && Order.FsBarrier(es[i])
    ensures Added(es, j) == Some(r) && Flushing(After(es), b, r) && b.epoch == Barriers(es[..i])
  {
    hide Possible, After, Step, Enabled, Insertions, Stalled, Back, OddTurns, Barriers, Arrival;
    var es0;
    es0, j, i, b, r := StallRun(ins, p, q);
    var s := After(es0);
    StalledComesBack(s, b, r);
    Extend(es0, Requeue(r));
    var t := Step(s, Requeue(r));
    var x :| x in t.special;
    BackDrains(t, b, r, x);
    Extend(es0 + [Requeue(r)], Complete(x));
    es := es0 + [Requeue(r)] + [Complete(x)];
    assert es[..j] == es0[..j] && es[j] == es0[j] && es[..i] == es0[..i] && es[i] == es0[i];
    BackFlushes(t, Step(t, Complete(x)), b, r, x);
  }

  lemma BackFlushes(t: State, u: State, b: Rq, r: Rq, x: Rq)
    requires Back(t, b, r) && u == t.(special := t.special - multiset{x}, ordseq := t.ordseq.(drain := true))
    ensures Flushing(u, b, r)
  {}

  lemma FlushingFacts(s: State, b: Rq, r: Rq)
    requires Flushing(s, b, r)
    ensures Plain(r) && b.Normal? && b.epoch == s.completed && s.queue != [] && s.queue[0] == Pre
  {}

  lemma StrandingFlushes(ins: seq<Event>, p: int, q: int)
    requires EndsEpoch(ins, p, q) && OddTurns(ins, p, q) && forall x :: 0 <= x < |ins| ==> Insertion(ins[x])
    ensures CanFlushEarly(ins)
  {
    hide Possible, After, Step, Enabled, Insertions, Flushing, OddTurns, Barriers, Arrival, Held;
    var es0, j, i, b, r := FlushRun(ins, p, q);
    FlushGoes(After(es0), b, r);
    FlushingFacts(After(es0), b, r);
    Extend(es0, Fetch);
    var es := Rest(ins, q, es0 + [Fetch]);
    var k := |es0|;
    assert es[..k] == es0 && es[..j] == es0[..j] && es[j] == es0[j] && es[..i] == es0[..i] && es[i] == es0[i] && es[k] == Fetch;
    assert FlushedEarly(es, j, i, k);
  }

  lemma StrandingLeaves(ins: seq<Event>, p: int, q: int)
    requires EndsEpoch(ins, p, q) && OddTurns(ins, p, q) && forall x :: 0 <= x < |ins| ==> Insertion(ins[x])
    ensures CanLeaveBehind(ins)
  {
    hide Possible, After, Step, Enabled, Insertions, Flushing, OddTurns, Barriers, Arrival, Held;
    var es0, j, i, b, r := FlushRun(ins, p, q);
    var s := After(es0);
    FlushGoes(s, b, r);
    FlushingFacts(s, b, r);
    Extend(es0, Fetch);
    Extend2(es0, s, b, r);
    var es1 := es0 + [Fetch] + [Complete(Pre)];
    if b.sectors != 0 {
      WriteEnds(s, b, r);
      Extend(es1, Fetch);
      Extend(es1 + [Fetch], Complete(Bar));
      es1 := es1 + [Fetch] + [Complete(Bar)];
    } else {
      EmptyEnds(s, b, r);
    }
    var es := Rest(ins, q, es1);
    var k := |es1|;
    assert es[..k] == es1 && es[..j] == es0[..j] && es[j] == es0[j] && es[..i] == es0[..i] && es[i] == es0[i];
    assert LeftBehind(es, j, i, k);
  }

  lemma Extend2(es: seq<Event>, s: State, b: Rq, r: Rq)
    requires Possible(es) && After(es) == s && Flushing(s, b, r) && Enabled(s, Fetch)
    requires Step(s, Fetch) == s.(queue := s.queue[1..], special := s.special + multiset{Pre})
    ensures Possible(es + [Fetch] + [Complete(Pre)]) && Enabled(Step(s, Fetch), Complete(Pre))
    ensures After(es + [Fetch] + [Complete(Pre)]) == Step(Step(s, Fetch), Complete(Pre))
    ensures Insertions(es + [Fetch] + [Complete(Pre)]) == Insertions(es)
  {
    hide Possible, After, Step, Insertions, Flushing;
    assert Pre in Step(s, Fetch).special;
    Extend(es, Fetch);
    Extend(es + [Fetch], Complete(Pre));
  }

  // Exactly when

  /** The queue can wedge exactly if a request and the next barrier have different colours. */
  lemma WedgeIff(ins: seq<Event>)
    requires !Misleading(ins) && forall x :: 0 <= x < |ins| ==> Insertion(ins[x])
    ensures CanWedge(ins) <==> Stranding(ins)
  {
    hide CanWedge, CanFlushEarly, CanLeaveBehind, Misleading;
    if Stranding(ins) {
      var p, q :| EndsEpoch(ins, p, q) && OddTurns(ins, p, q);
      StrandingWedges(ins, p, q);
    } else {
      FaithfulHolds(ins);
    }
  }

  /** A barrier's step can go before an earlier request is done exactly then. */
  lemma FlushIff(ins: seq<Event>)
    requires !Misleading(ins) && forall x :: 0 <= x < |ins| ==> Insertion(ins[x])
    ensures CanFlushEarly(ins) <==> Stranding(ins)
  {
    hide CanWedge, CanFlushEarly, CanLeaveBehind, Misleading;
    if Stranding(ins) {
      var p, q :| EndsEpoch(ins, p, q) && OddTurns(ins, p, q);
      StrandingFlushes(ins, p, q);
    } else {
      FaithfulHolds(ins);
    }
  }

  /** A barrier can complete before an earlier request exactly then. */
  lemma LeaveIff(ins: seq<Event>)
    requires !Misleading(ins) && forall x :: 0 <= x < |ins| ==> Insertion(ins[x])
    ensures CanLeaveBehind(ins) <==> Stranding(ins)
  {
    hide CanWedge, CanFlushEarly, CanLeaveBehind, Misleading;
    if Stranding(ins) {
      var p, q :| EndsEpoch(ins, p, q) && OddTurns(ins, p, q);
      StrandingLeaves(ins, p, q);
    } else {
      FaithfulHolds(ins);
    }
  }

  /** One hard request between a request and a barrier does all three, and misleads nobody. */
  lemma OneHardStrands(e: Event, h: Event, b: Event)
    requires PlainInsertion(e) && HardInsertion(h) && Order.FsBarrier(b)
    ensures !Misleading([e, h, b]) && CanWedge([e, h, b]) && CanFlushEarly([e, h, b]) && CanLeaveBehind([e, h, b])
  {
    hide CanWedge, CanFlushEarly, CanLeaveBehind;
    var ins := [e, h, b];
    assert ins[..2] == [e, h] && [e, h][..1] == [e] && [e][..0] == [];
    assert Hards([e]) == 0;
    assert Hards(ins[..2]) == 1 && Hards(ins[..0]) == 0;
    assert EndsEpoch(ins, 0, 2) && OddTurns(ins, 0, 2);
    StrandingWedges(ins, 0, 2);
    StrandingFlushes(ins, 0, 2);
    StrandingLeaves(ins, 0, 2);
  }

  /** A request can be late exactly if the insertions mislead. */
  lemma LateIff(ins: seq<Event>)
    requires forall x :: 0 <= x < |ins| ==> Insertion(ins[x])
    ensures CanBeLate(ins) <==> Misleading(ins)
  {
    hide Possible, Insertions, Overtakes, Late, After;
    if Misleading(ins) {
      var p, q :| CanBeFirst(ins, p, q) && OddTurns(ins, p, q);
      var es, i, j, k := MisleadingRun(ins, p, q);
      OvertakesIn(es, i, j, k);
      assert LateAt(es, k);
    } else {
      forall es, k: nat | Possible(es) && Insertions(es) == ins
        ensures !LateAt(es, k)
      {
        if k <= |es| {
          LatePrefix(es, k);
        }
      }
    }
  }

  lemma OvertakesIn(es: seq<Event>, i: nat, j: nat, k: nat)
    requires Overtakes(es, i, j, k)
    ensures k <= |es|
  {}

  lemma LatePrefix(es: seq<Event>, k: nat)
    requires Possible(es) && !Misleading(Insertions(es)) && k <= |es|
    ensures !Late(After(es[..k]))
  {
    hide Possible, Insertions, After, Misleading;
    PossiblePrefix(es, k);
    var more := InsertionsPrefix(es, k);
    if Misleading(Insertions(es[..k])) {
      MisleadingGrows(Insertions(es[..k]), more);
    }
    NeverLate(es[..k]);
  }

  // A barrier that comes back

  const FIRST := Normal(1, true, true, true, 0, 0, false, true, 0)
  const TURN := Normal(2, false, true, true, 0, 0, true, false, 1)
  const EARLY := Normal(3, true, false, true, 0, 8, false, false, 1)
  const SECOND := Normal(4, true, true, true, 0, 0, false, true, 1)
  const FLUSHING := OrdSeq(true, true, false, true, true)

  lemma Then(es: seq<Event>, e: Event, s: State, t: State) returns (all: seq<Event>)
    requires Possible(es) && After(es) == s && Enabled(s, e) && Step(s, e) == t
    ensures all == es + [e] && Possible(all) && After(all) == t
  {
    hide Possible, After, Step, Enabled, Insertions;
    Extend(es, e);
    all := es + [e];
  }

  lemma NoEvents()
    ensures Possible([]) && After([]) == INITIAL
  {}

  /** The only request in the queue is taken. */
  lemma TakesOnly(s: State, x: Rq)
    requires s.queue == [x] && Allowed(s, x)
    ensures Enabled(s, Fetch)
    ensures Step(s, Fetch) == if x.Fs() then s.(queue := [], issued := s.issued + multiset{Bare(x)})
      else s.(queue := [], special := s.special + multiset{Bare(x)})
  {
    hide Allowed;
  }

  lemma GivesBack(s: State, x: Rq)
    requires !s.Active() && x.Fs() && x in s.issued
    ensures Enabled(s, Requeue(x)) && Step(s, Requeue(x)) == s.(queue := [Stopped(x)] + s.queue, issued := s.issued - multiset{x})
  {
    assert Insert(s.queue, 0, Stopped(x)) == [Stopped(x)] + s.queue;
  }

  /** An empty barrier starts with a flush, when nothing is with the driver. */
  lemma StartsFlush(s: State, b: Rq, rest: seq<Rq>)
    requires s.queue == [b] + rest && b.Barrier() && b.sectors == 0 && !s.Active() && s.issued == multiset{}
    ensures Enabled(s, Start(true, false))
    ensures Step(s, Start(true, false)) == s.(queue := [Pre] + rest, orig := Some(b), ordseq := FLUSHING)
  {
    hide CurSeq;
    CurSeqIsFirstIncomplete(FLUSHING);
    assert s.queue[1..] == rest;
  }

  lemma EndsFlush(s: State)
    requires s.Active() && s.ordseq == FLUSHING && Pre in s.special
    ensures Enabled(s, Complete(Pre))
    ensures Step(s, Complete(Pre)) == s.(special := s.special - multiset{Pre}, orig := None, ordseq := IDLE, completed := s.completed + 1)
  {
    hide CurSeq, ReqSeq;
    CurSeqIsFirstIncomplete(FLUSHING);
    CurSeqIsFirstIncomplete(FLUSHING.(pre := true));
  }

  /** While the flush is under way, what has the barrier's colour may be taken. */
  lemma OwnColourGoes(s: State, x: Rq)
    requires s.Active() && s.ordseq == FLUSHING && s.orig.value.Normal? && (x == Pre || (x.Normal? && (x.fs ==> x.color == s.orig.value.color)))
    ensures Allowed(s, x)
  {
    hide CurSeq;
    CurSeqIsFirstIncomplete(FLUSHING);
  }

  const BEGUN := State([], multiset{}, multiset{}, multiset{Pre}, FLUSHING, Some(FIRST), true, 1, 0)
  const BOTH := State([], multiset{}, multiset{EARLY, Bare(SECOND)}, multiset{Pre, TURN}, FLUSHING, Some(FIRST), true, 2, 0)
  const RETURNED := State([SECOND, Stopped(EARLY)], multiset{}, multiset{}, multiset{TURN}, IDLE, None, true, 2, 1)
  const AGAIN := State([Pre], multiset{}, multiset{EARLY}, multiset{TURN}, FLUSHING, Some(SECOND), true, 2, 1)

  /** The first barrier's flush is with the driver. */
  lemma FirstBarrier() returns (es: seq<Event>)
    ensures Possible(es) && After(es) == BEGUN
  {
    hide Possible, After, StartOrdered, RequeueRq, CompleteRq, Allowed;
    NoEvents();
    var s1 := INITIAL.(queue := [FIRST], ordcolor := true, added := 1);
    es := Then([], AddBack(1, true, true, true, 0, 0), INITIAL, s1);
    StartsFlush(s1, FIRST, []);
    var s2 := s1.(queue := [Pre], orig := Some(FIRST), ordseq := FLUSHING);
    assert [Pre] + [] == [Pre];
    es := Then(es, Start(true, false), s1, s2);
    OwnColourGoes(s2, Pre);
    TakesOnly(s2, Pre);
    es := Then(es, Fetch, s2, BEGUN);
  }

  /** A request comes in, and is taken during the sequence. */
  lemma TakenNow(es: seq<Event>, e: Event, s: State, x: Rq, t: State) returns (all: seq<Event>)
    requires Possible(es) && After(es) == s && s.queue == [] && s.Active() && s.ordseq == FLUSHING && s.orig.value.Normal?
    requires Enabled(s, e) && Step(s, e) == t.(queue := [x]) && x.Normal? && (x.fs ==> x.color == s.orig.value.color)
    requires t.queue == [] && t.orig == s.orig && t.ordseq == s.ordseq
    ensures Possible(all)
    ensures After(all) == if x.Fs() then t.(issued := t.issued + multiset{Bare(x)}) else t.(special := t.special + multiset{Bare(x)})
  {
    hide Possible, After, Step, Enabled, Allowed;
    var u := t.(queue := [x]);
    all := Then(es, e, s, u);
    OwnColourGoes(u, x);
    TakesOnly(u, x);
    all := Then(all, Fetch, u, if x.Fs() then t.(issued := t.issued + multiset{Bare(x)}) else t.(special := t.special + multiset{Bare(x)}));
  }

  /** After a turn of the colour, a request and the second barrier are taken during the first one's sequence. */
  lemma BothTaken(es0: seq<Event>) returns (es: seq<Event>)
    requires Possible(es0) && After(es0) == BEGUN
    ensures Possible(es) && After(es) == BOTH
  {
    hide Possible, After, StartOrdered, RequeueRq, CompleteRq, Allowed;
    es := TakenNow(es0, AddFront(2, true, true, 0, 0), BEGUN, Stopped(TURN), BEGUN.(ordcolor := false));
    var s1 := BEGUN.(ordcolor := false, special := multiset{Pre, TURN});
    assert After(es) == s1;
    es := TakenNow(es, AddBack(3, true, false, true, 0, 8), s1, Stopped(EARLY), s1);
    var s2 := s1.(issued := multiset{EARLY});
    assert After(es) == s2;
    es := TakenNow(es, AddBack(4, true, true, true, 0, 0), s2, SECOND, s2.(ordcolor := true, added := 2));
  }

  /** The first barrier ends, and both come back, the barrier to the front. */
  lemma BothBack(es0: seq<Event>) returns (es: seq<Event>)
    requires Possible(es0) && After(es0) == BOTH
    ensures Possible(es) && After(es) == RETURNED
  {
    hide Possible, After, Step, Enabled;
    EndsFlush(BOTH);
    assert multiset{Pre, TURN} - multiset{Pre} == multiset{TURN};
    var s1 := BOTH.(special := multiset{TURN}, orig := None, ordseq := IDLE, completed := 1);
    es := Then(es0, Complete(Pre), BOTH, s1);
    GivesBack(s1, EARLY);
    assert multiset{EARLY, Bare(SECOND)} - multiset{EARLY} == multiset{Bare(SECOND)};
    var s2 := s1.(queue := [Stopped(EARLY)], issued := multiset{Bare(SECOND)});
    assert [Stopped(EARLY)] + [] == [Stopped(EARLY)];
    es := Then(es, Requeue(EARLY), s1, s2);
    GivesBack(s2, Bare(SECOND));
    assert multiset{Bare(SECOND)} - multiset{Bare(SECOND)} == multiset{} && Stopped(Bare(SECOND)) == SECOND;
    assert [SECOND] + [Stopped(EARLY)] == [SECOND, Stopped(EARLY)];
    es := Then(es, Requeue(Bare(SECOND)), s2, RETURNED);
  }

  lemma FlushReturns(s: State)
    requires s.queue == [] && s.Active() && s.special == multiset{TURN, Pre}
    ensures Enabled(s, Requeue(Pre)) && Step(s, Requeue(Pre)) == s.(queue := [Pre], special := multiset{TURN})
  {
    assert multiset{TURN, Pre} - multiset{Pre} == multiset{TURN};
  }

  lemma TakesFirst(s: State, rest: seq<Rq>)
    requires s.queue == [Pre] + rest && Allowed(s, Pre)
    ensures Enabled(s, Fetch) && Step(s, Fetch) == s.(queue := rest, special := s.special + multiset{Pre})
  {
    hide Allowed;
    assert s.queue[1..] == rest;
  }

  /** The second barrier's flush, taken and given back, goes again while the driver has the request. */
  lemma FlushedAgain(es0: seq<Event>) returns (es: seq<Event>)
    requires Possible(es0) && After(es0) == RETURNED
    ensures Possible(es) && After(es) == AGAIN && Enabled(AGAIN, Fetch)
  {
    hide Possible, After, Step, Enabled, Allowed;
    assert [SECOND] + [Stopped(EARLY)] == RETURNED.queue;
    StartsFlush(RETURNED, SECOND, [Stopped(EARLY)]);
    var s1 := RETURNED.(queue := [Pre] + [Stopped(EARLY)], orig := Some(SECOND), ordseq := FLUSHING);
    es := Then(es0, Start(true, false), RETURNED, s1);
    OwnColourGoes(s1, Pre);
    TakesFirst(s1, [Stopped(EARLY)]);
    var s2 := s1.(queue := [Stopped(EARLY)], special := multiset{TURN, Pre});
    es := Then(es, Fetch, s1, s2);
    OwnColourGoes(s2, Stopped(EARLY));
    TakesOnly(s2, Stopped(EARLY));
    var s3 := s2.(queue := [], issued := multiset{EARLY});
    es := Then(es, Fetch, s2, s3);
    FlushReturns(s3);
    es := Then(es, Requeue(Pre), s3, AGAIN);
    OwnColourGoes(AGAIN, Pre);
    TakesOnly(AGAIN, Pre);
  }

  /** A barrier that the driver gives back can come before a request queued earlier, which then goes during its
      sequence. */
  lemma ReturnedBarrierBreaks() returns (es: seq<Event>, k: nat)
    ensures Possible(es) && k < |es| && es[k].Fetch? && !NeverCutsIn(es[..k])
    ensures var s := After(es[..k]);
      && s.queue != [] && !s.queue[0].Normal? && s.Active() && s.orig.value.Normal?
      && exists r :: r in s.issued && r.Normal? && r.fs && r.epoch <= s.orig.value.epoch
  {
    hide Possible, After, Step, Enabled, Insertions;
    var es1 := FirstBarrier();
    var es2 := BothTaken(es1);
    var es3 := BothBack(es2);
    var es4 := FlushedAgain(es3);
    Extend(es4, Fetch);
    es, k := es4 + [Fetch], |es4|;
    assert es[..k] == es4 && EARLY in After(es4).issued;
    if NeverCutsIn(es4) {
      StepsWaitForDriver(es, k);
    }
  }
}
