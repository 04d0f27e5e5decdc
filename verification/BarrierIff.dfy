/** Exactly which insertions let a request overtake a barrier in some run. */
module BarrierIff {
  import opened Options
  import opened BarrierModel
  import opened BarrierSafety
  import opened BarrierCore
  import opened BarrierRuns
  import Order = BarrierOrder

  /** Event `k` hands the driver a file system request that event `j` queued after the barrier of event `i`,
      and that barrier is not complete. */
  ghost predicate Overtakes(es: seq<Event>, i: nat, j: nat, k: nat) {
    && i < j < k < |es| && Order.FsBarrier(es[i]) && Added(es, j).Some? && Added(es, j).value.fs
    && es[k].Fetch? && After(es[..k]).queue != [] && Bare(After(es[..k]).queue[0]) == Added(es, j).value
    && After(es[..k]).completed <= Barriers(es[..i])
  }

  /** Some run with these insertions has an overtaking. */
  ghost predicate Broken(ins: seq<Event>) {
    exists es, i: nat, j: nat, k: nat :: Possible(es) && Insertions(es) == ins && Overtakes(es, i, j, k)
  }

  /** Request `q` can come to be the first file system request behind barrier `p`: there is none in between, or
      only such as the scheduler may hold back, because nothing is put at the back after them. */
  ghost predicate CanBeFirst(ins: seq<Event>, p: int, q: int) {
    && 0 <= p < q < |ins| && Order.FsBarrier(ins[p]) && FsInsertion(ins[q])
    && forall x, y :: p < x < q && FsInsertion(ins[x]) && x <= y <= q ==> !ins[y].AddBack?
  }

  /** Between the two, requests that are not file system ones turn the colour an odd number of times. */
  ghost predicate OddTurns(ins: seq<Event>, p: int, q: int)
    requires 0 <= p < q < |ins|
  {
    (Hards(ins[..q]) - Hards(ins[..p])) % 2 == 1
  }

  ghost predicate Misleading(ins: seq<Event>) {
    exists p, q :: CanBeFirst(ins, p, q) && OddTurns(ins, p, q)
  }

  /** A simple condition that is enough: an even number of turns before every file system request. */
  ghost predicate Even(ins: seq<Event>) {
    forall p :: 0 <= p < |ins| && FsInsertion(ins[p]) ==> Hards(ins[..p]) % 2 == 0
  }

  /** The first request belongs to a step before the current one, which blk_do_ordered warns of. */
  ghost predicate Late(s: State) {
    s.Active() && s.queue != [] && Keyed(s.queue[0]) && ReqSeq(s.orig, s.queue[0]) < CurSeq(s.ordseq)
  }

  lemma {:induction false} HardsGrow(ins: seq<Event>, p: nat, q: nat)
    requires p <= q <= |ins|
    ensures Hards(ins[..p]) <= Hards(ins[..q])
  {
    if p < q {
      HardsGrow(ins, p, q - 1);
      assert ins[..q][..q - 1] == ins[..q - 1];
    }
  }

  lemma MisleadingGrows(ins: seq<Event>, more: seq<Event>)
    requires Misleading(ins)
    ensures Misleading(ins + more)
  {
    var p, q :| CanBeFirst(ins, p, q) && OddTurns(ins, p, q);
    var all := ins + more;
    assert all[..q] == ins[..q] && all[..p] == ins[..p];
    assert forall x :: 0 <= x < |ins| ==> all[x] == ins[x];
    assert CanBeFirst(all, p, q) && OddTurns(all, p, q);
  }

  // Insertions that do not mislead

  function Phase(ins: seq<Event>): nat {
    if ins == [] then 0 else Order.NextPhase(Phase(ins[..|ins| - 1]), ins[|ins| - 1])
  }

  /** The last barrier, or -1. */
  function LastBarrier(ins: seq<Event>): (p: int)
    ensures -1 <= p < |ins| && (p >= 0 ==> Order.FsBarrier(ins[p]))
  {
    if ins == [] then -1
    else if Order.FsBarrier(ins[|ins| - 1]) then |ins| - 1
    else LastBarrier(ins[..|ins| - 1])
  }

  lemma {:induction false} PhaseMeans(ins: seq<Event>)
    ensures Phase(ins) == 0 ==> forall x :: LastBarrier(ins) < x < |ins| ==> !FsInsertion(ins[x])
    ensures Phase(ins) == 1 ==>
      forall x, y :: LastBarrier(ins) < x <= y < |ins| && FsInsertion(ins[x]) ==> !ins[y].AddBack?
  {
    if ins != [] {
      var init := ins[..|ins| - 1];
      PhaseMeans(init);
      assert forall x :: 0 <= x < |init| ==> init[x] == ins[x];
    }
  }

  lemma ExposedCanBeFirst(init: seq<Event>, e: Event)
    requires Order.Exposed(Phase(init), e) && LastBarrier(init) >= 0
    ensures CanBeFirst(init + [e], LastBarrier(init), |init|)
  {
    PhaseMeans(init);
    var ins, p := init + [e], LastBarrier(init);
    assert forall x :: 0 <= x < |init| ==> ins[x] == init[x];
  }

  /** The colour of the last barrier. */
  function LastColour(es: seq<Event>): bool {
    if es == [] then false else Order.NextLast(After(es[..|es| - 1]), LastColour(es[..|es| - 1]), es[|es| - 1])
  }

  /** How often the colour turned since the last barrier. */
  function Turns(ins: seq<Event>): int {
    Hards(ins) - if LastBarrier(ins) >= 0 then Hards(ins[..LastBarrier(ins)]) else 0
  }

  lemma TurnsNext(ins: seq<Event>, e: Event)
    ensures LastBarrier(ins + [e]) == if Order.FsBarrier(e) then |ins| else LastBarrier(ins)
    ensures Turns(ins + [e]) == if Order.FsBarrier(e) then 0 else Turns(ins) + if HardInsertion(e) then 1 else 0
  {
    var all := ins + [e];
    assert all[..|all| - 1] == ins;
    if LastBarrier(ins) >= 0 {
      assert all[..LastBarrier(ins)] == ins[..LastBarrier(ins)];
    }
  }

  lemma {:induction false} ColourTurned(es: seq<Event>)
    requires Possible(es)
    ensures LastBarrier(Insertions(es)) >= 0 <==> Barriers(es) > 0
    ensures Barriers(es) > 0 ==> (After(es).ordcolor != LastColour(es) <==> Turns(Insertions(es)) % 2 == 0)
  {
    hide Enabled, Step, Turns, Hards;
    if es != [] {
      var init, e := es[..|es| - 1], es[|es| - 1];
      ColourTurned(init);
      StepColour(After(init), e);
      if Insertion(e) {
        TurnsNext(Insertions(init), e);
      } else {
        assert Insertions(es) == Insertions(init);
      }
    }
  }

  /** What is known after every run whose insertions do not mislead. */
  lemma {:induction false} RunHeld(es: seq<Event>)
    requires Possible(es) && !Misleading(Insertions(es))
    ensures Order.Held(After(es), Phase(Insertions(es)), LastColour(es))
  {
    hide Enabled, Step, Turns, Hards, Misleading;
    if es == [] {
      Order.InitialHeld(false);
    } else {
      var init, e := es[..|es| - 1], es[|es| - 1];
      var ins := Insertions(init);
      if Misleading(ins) {
        MisleadingGrows(ins, if Insertion(e) then [e] else []);
      }
      RunHeld(init);
      RunCore(init);
      if Insertion(e) {
        OtherColour(init, e);
        assert (ins + [e])[..|ins|] == ins;
      } else {
        assert Insertions(es) == ins;
      }
      Order.StepHeld(After(init), e, Phase(ins), LastColour(init));
    }
  }

  lemma OtherColour(init: seq<Event>, e: Event)
    requires Possible(init) && !Misleading(Insertions(init) + [e])
    ensures Order.Exposed(Phase(Insertions(init)), e) && After(init).added > 0 ==> After(init).ordcolor != LastColour(init)
  {
    hide Possible, After, Insertions, Phase, Hards, LastColour;
    var ins := Insertions(init);
    EpochIsBarriers(init);
    ColourTurned(init);
    if Order.Exposed(Phase(ins), e) && LastBarrier(ins) >= 0 {
      var p, q := LastBarrier(ins), |ins|;
      ExposedCanBeFirst(ins, e);
      var all := ins + [e];
      assert all[..q] == ins && all[..p] == ins[..p];
      assert CanBeFirst(all, p, q);
      assert !OddTurns(all, p, q);
    }
  }

  lemma {:induction false} InsertionsPrefix(es: seq<Event>, k: nat) returns (more: seq<Event>)
    requires k <= |es|
    ensures Insertions(es) == Insertions(es[..k]) + more
  {
    if k == |es| {
      assert es[..k] == es;
      more := [];
    } else {
      var init := es[..|es| - 1];
      more := InsertionsPrefix(init, k);
      assert init[..k] == es[..k];
      more := more + if Insertion(es[|es| - 1]) then [es[|es| - 1]] else [];
    }
  }

  /** Insertions that do not mislead are ordered in every run. */
  lemma NotMisleadingNotBroken(ins: seq<Event>)
    requires !Misleading(ins)
    ensures !Broken(ins)
  {
    hide Possible, After, Added, Misleading, Insertions, Barriers;
    forall es, i: nat, j: nat, k: nat | Possible(es) && Insertions(es) == ins
      ensures !Overtakes(es, i, j, k)
    {
      if Overtakes(es, i, j, k) {
        LaterRequestsWait(es, i, j, k);
      }
    }
  }

  /** No file system request queued after a barrier reaches the driver before that barrier is complete: barrier
      number n is, once more than n are. */
  lemma LaterRequestsWait(es: seq<Event>, i: nat, j: nat, k: nat)
    requires Possible(es) && !Misleading(Insertions(es)) && i < j < k < |es|
    requires Order.FsBarrier(es[i]) && Added(es, j).Some? && Added(es, j).value.fs
    requires es[k].Fetch? && After(es[..k]).queue != [] && Bare(After(es[..k]).queue[0]) == Added(es, j).value
    ensures After(es[..k]).completed > Barriers(es[..i])
  {
    hide Step, Misleading, Insertions, Phase;
    PossiblePrefix(es, j);
    PossiblePrefix(es, k);
    var more := InsertionsPrefix(es, k);
    if Misleading(Insertions(es[..k])) {
      MisleadingGrows(Insertions(es[..k]), more);
    }
    RunHeld(es[..k]);
    RunCore(es[..k]);
    HeadEarly(After(es[..k]), Phase(Insertions(es[..k])), LastColour(es[..k]));
    EpochIsBarriers(es[..j]);
    BarriersGrow(es, i, j);
  }

  /** An even number of turns before every file system request does not mislead. */
  lemma EvenNotMisleading(ins: seq<Event>)
    requires Even(ins)
    ensures !Misleading(ins)
  {
    hide Hards;
    forall p, q | CanBeFirst(ins, p, q)
      ensures !OddTurns(ins, p, q)
    {
      assert FsInsertion(ins[p]) && FsInsertion(ins[q]);
    }
  }

  lemma HeadEarly(s: State, phase: nat, last: bool)
    requires Core(s) && Order.Held(s, phase, last) && Enabled(s, Fetch)
    ensures !Later(s.queue[0], s.completed)
  {
    hide Core, Allowed;
    Order.HeadIsEarly(s);
  }

  // Insertions that mislead

  lemma Extend(es: seq<Event>, e: Event)
    requires Possible(es) && Enabled(After(es), e)
    ensures Possible(es + [e]) && After(es + [e]) == Step(After(es), e)
    ensures Insertions(es + [e]) == Insertions(es) + if Insertion(e) then [e] else []
  {
    hide Possible, After, Step, Enabled;
    Recorded(es, e);
    assert (es + [e])[..|es|] == es;
  }

  /** Every request is done. */
  ghost predicate Quiet(s: State) {
    s == State([], multiset{}, multiset{}, multiset{}, IDLE, None, s.ordcolor, s.added, s.added)
  }

  lemma QuietSorted(s: State, e: Event)
    requires Quiet(s) && e.AddSorted?
    ensures var r := Normal(e.id, true, false, e.write, e.sector, e.sectors, s.ordcolor, false, s.added);
      var t := Step(s, e);
      && Enabled(t, Dispatch(r, 0)) && Step(t, Dispatch(r, 0)) == s.(queue := [r])
      && Enabled(s.(queue := [r]), Fetch) && Step(s.(queue := [r]), Fetch) == s.(issued := multiset{r})
      && Enabled(s.(issued := multiset{r}), Complete(r)) && Quiet(Step(s.(issued := multiset{r}), Complete(r)))
  {
    hide CompleteSeq, CurSeq, ReqSeq;
  }

  lemma QuietOther(s: State, e: Event)
    requires Quiet(s) && ((e.AddBack? && !Order.FsBarrier(e)) || e.AddFront?)
    ensures Enabled(s, e) && |Step(s, e).queue| == 1 && Enabled(Step(s, e), Fetch)
    ensures var t := Step(Step(s, e), Fetch); var r := Bare(Step(s, e).queue[0]);
      Enabled(t, Complete(r)) && Quiet(Step(t, Complete(r)))
  {
    hide CompleteSeq, CurSeq, ReqSeq;
  }

  lemma QuietBarrier(s: State, e: Event)
    requires Quiet(s) && Order.FsBarrier(e)
    ensures Enabled(s, e) && var t := Step(s, e); Enabled(t, Start(false, false)) && var u := Step(t, Start(false, false));
      if e.sectors == 0 then Quiet(u)
      else Enabled(u, Fetch) && Enabled(Step(u, Fetch), Complete(Bar)) && Quiet(Step(Step(u, Fetch), Complete(Bar)))
  {
    hide StartOrdered, CompleteRq, RequeueRq, CurSeq, Allowed, Taken;
    var t := Step(s, e);
    var b := t.queue[0];
    if e.sectors == 0 {
      EmptyBarrier(t);
    } else {
      OneBarrier(t);
      var o := OrdSeq(true, true, true, false, true);
      BarGoes(t.(queue := [Bar], orig := Some(b), ordseq := o), b);
    }
  }

  lemma EmptyBarrier(t: State)
    requires |t.queue| == 1 && t.queue[0].Barrier() && t.queue[0].sectors == 0 && t.issued == multiset{}
    ensures StartOrdered(t, false, false) == t.(queue := [], orig := None, ordseq := IDLE, completed := t.completed + 1)
  {
    hide CurSeq;
    CurSeqIsFirstIncomplete(OrdSeq(true, true, true, true, true));
    assert t.queue[1..] == [];
  }

  lemma BarGoes(u: State, b: Rq)
    requires u == State([Bar], multiset{}, multiset{}, multiset{}, OrdSeq(true, true, true, false, true), Some(b), u.ordcolor, u.added, u.completed)
    requires u.completed + 1 == u.added
    ensures Enabled(u, Fetch) && Enabled(Step(u, Fetch), Complete(Bar)) && Quiet(Step(Step(u, Fetch), Complete(Bar)))
  {
    hide CurSeq;
    CurSeqIsFirstIncomplete(u.ordseq);
    CurSeqIsFirstIncomplete(OrdSeq(true, true, true, true, true));
    var v := u.(queue := [], issued := multiset{Bar});
    assert Enabled(u, Fetch) && Step(u, Fetch) == v;
    assert v.issued - multiset{Bar} == multiset{};
  }

  lemma OneBarrier(t: State)
    requires |t.queue| == 1 && t.queue[0].Barrier() && t.queue[0].sectors != 0 && t.issued == multiset{}
    ensures StartOrdered(t, false, false) == t.(queue := [Bar], orig := Some(t.queue[0]), ordseq := OrdSeq(true, true, true, false, true))
  {
    hide CurSeq;
    CurSeqIsFirstIncomplete(OrdSeq(true, true, true, false, true));
    assert t.queue[1..] == [];
  }

  /** One request comes in and is done. */
  lemma Eagerly(es: seq<Event>, e: Event) returns (all: seq<Event>)
    requires Possible(es) && Quiet(After(es)) && Insertion(e)
    ensures Possible(all) && Quiet(After(all)) && Insertions(all) == Insertions(es) + [e]
  {
    hide Possible, After, Step, Enabled, Insertions, Quiet;
    var s := After(es);
    if e.AddSorted? {
      QuietSorted(s, e);
      SortedEnabled(s, e);
      var r := Normal(e.id, true, false, e.write, e.sector, e.sectors, s.ordcolor, false, s.added);
      Extend(es, e);
      Extend(es + [e], Dispatch(r, 0));
      Extend(es + [e] + [Dispatch(r, 0)], Fetch);
      Extend(es + [e] + [Dispatch(r, 0)] + [Fetch], Complete(r));
      all := es + [e] + [Dispatch(r, 0)] + [Fetch] + [Complete(r)];
    } else if Order.FsBarrier(e) {
      QuietBarrier(s, e);
      Extend(es, e);
      Extend(es + [e], Start(false, false));
      all := es + [e] + [Start(false, false)];
      if e.sectors != 0 {
        Extend(all, Fetch);
        Extend(all + [Fetch], Complete(Bar));
        all := all + [Fetch] + [Complete(Bar)];
      }
    } else {
      QuietOther(s, e);
      Extend(es, e);
      Extend(es + [e], Fetch);
      var r := Bare(Step(s, e).queue[0]);
      Extend(es + [e] + [Fetch], Complete(r));
      all := es + [e] + [Fetch] + [Complete(r)];
    }
  }

  lemma SortedEnabled(s: State, e: Event)
    requires e.AddSorted?
    ensures Enabled(s, e)
  {}

  lemma {:induction false} Eager(ins: seq<Event>) returns (es: seq<Event>)
    requires forall x :: 0 <= x < |ins| ==> Insertion(ins[x])
    ensures Possible(es) && Quiet(After(es)) && Insertions(es) == ins
  {
    hide Step, Enabled;
    if ins == [] {
      es := [];
    } else {
      es := Eager(ins[..|ins| - 1]);
      es := Eagerly(es, ins[|ins| - 1]);
      assert ins[..|ins| - 1] + [ins[|ins| - 1]] == ins;
    }
  }

  /** Barrier `n`, of colour `c`, is at the head, all before it is done, and behind it are requests that are not
      file system ones. */
  ghost predicate AtHead(s: State, n: nat, c: bool) {
    && s == State(s.queue, s.sorted, multiset{}, s.special, IDLE, None, s.ordcolor, n + 1, n)
    && s.queue != [] && s.queue[0].Barrier() && s.queue[0].epoch == n && s.queue[0].color == c
    && forall x :: 0 < x < |s.queue| ==> s.queue[x].Normal? && !s.queue[x].fs
  }

  lemma QuietAtHead(s: State, e: Event)
    requires Quiet(s) && Order.FsBarrier(e)
    ensures Enabled(s, e) && AtHead(Step(s, e), s.added, s.ordcolor) && Step(s, e).sorted == multiset{}
  {}

  lemma AtHeadSorted(s: State, e: Event, n: nat, c: bool)
    requires AtHead(s, n, c) && e.AddSorted?
    ensures Enabled(s, e) && AtHead(Step(s, e), n, c)
  {}

  lemma AtHeadBack(s: State, e: Event, n: nat, c: bool)
    requires AtHead(s, n, c) && e.AddBack? && !e.fs && s.sorted == multiset{}
    ensures Enabled(s, e) && AtHead(Step(s, e), n, c) && Step(s, e).sorted == multiset{}
  {}

  lemma AtHeadFront(s: State, e: Event, n: nat, c: bool)
    requires AtHead(s, n, c) && e.AddFront?
    ensures Enabled(s, e) && Enabled(Step(s, e), Fetch)
    ensures AtHead(Step(Step(s, e), Fetch), n, c) && Step(Step(s, e), Fetch).sorted == s.sorted
  {
    var t := Step(s, e);
    assert t.queue[1..] == s.queue;
  }

  ghost predicate NoFs(ins: seq<Event>, p: int, m: int) { forall x :: p < x < m && 0 <= x < |ins| ==> !FsInsertion(ins[x]) }

  /** All before barrier `p` is done; what comes up to `m` waits, or is taken at once from the front. */
  lemma {:induction false} Upto(ins: seq<Event>, p: int, q: int, m: int) returns (es: seq<Event>, i: nat)
    requires CanBeFirst(ins, p, q) && p < m <= q && forall x :: 0 <= x < |ins| ==> Insertion(ins[x])
    ensures Possible(es) && Insertions(es) == ins[..m] && i < |es| && es[i] == ins[p] && Insertions(es[..i]) == ins[..p]
    ensures AtHead(After(es), Barriers(es[..i]), After(es[..i]).ordcolor)
    ensures NoFs(ins, p, m) ==> After(es).sorted == multiset{}
    decreases m
  {
    hide Possible, After, Step, Enabled, Insertions, Quiet, AtHead, Barriers;
    if m == p + 1 {
      es := Eager(ins[..p]);
      i := |es|;
      QuietAtHead(After(es), ins[p]);
      EpochIsBarriers(es);
      Extend(es, ins[p]);
      assert (es + [ins[p]])[..i] == es && ins[..p] + [ins[p]] == ins[..m];
      es := es + [ins[p]];
    } else {
      es, i := Upto(ins, p, q, m - 1);
      var e, n, c := ins[m - 1], Barriers(es[..i]), After(es[..i]).ordcolor;
      var more := MoreWaits(After(es), e, n, c, NoFs(ins, p, m - 1));
      assert ins[..m - 1] + [e] == ins[..m];
      Extend(es, e);
      assert (es + [e])[..i] == es[..i];
      es := es + [e];
      if more != [] {
        Extend(es, Fetch);
        assert (es + [Fetch])[..i] == es[..i];
        es := es + [Fetch];
      }
    }
  }

  lemma MoreWaits(s: State, e: Event, n: nat, c: bool, none: bool) returns (more: seq<Event>)
    requires AtHead(s, n, c) && Insertion(e) && (e.AddBack? ==> none && !e.fs) && (none ==> s.sorted == multiset{})
    ensures Enabled(s, e) && (more == [] || (more == [Fetch] && Enabled(Step(s, e), Fetch)))
    ensures var t := if more == [] then Step(s, e) else Step(Step(s, e), Fetch);
      AtHead(t, n, c) && (none && !FsInsertion(e) ==> t.sorted == multiset{})
  {
    hide Step, Enabled, AtHead;
    more := [];
    if e.AddSorted? {
      AtHeadSorted(s, e, n, c);
    } else if e.AddBack? {
      AtHeadBack(s, e, n, c);
    } else {
      AtHeadFront(s, e, n, c);
      more := [Fetch];
    }
  }

  predicate FsNormal(r: Rq) { r.Normal? && r.fs }

  /** The barrier at the head, others behind it, and a file system request of its colour at the end. */
  ghost predicate Behind(s: State, n: nat, r: Rq) {
    && FsNormal(r) && s.issued == multiset{} && s.ordseq == IDLE && s.orig == None && s.completed == n
    && |s.queue| > 1 && s.queue[0].Barrier() && s.queue[0].color == r.color && s.queue[|s.queue| - 1] == r
    && forall x :: 0 < x < |s.queue| - 1 ==> s.queue[x].Normal? && !s.queue[x].fs
  }

  lemma LateBack(s: State, e: Event, n: nat, c: bool)
    requires AtHead(s, n, c) && e.AddBack? && e.fs && s.sorted == multiset{} && s.ordcolor == c
    ensures Enabled(s, e) && Arrival(s, e).Some? && Behind(Step(s, e), n, Stopped(Arrival(s, e).value))
    ensures FsNormal(Arrival(s, e).value) && Bare(Arrival(s, e).value) == Arrival(s, e).value
  {}

  lemma LateSorted(s: State, e: Event, n: nat, c: bool)
    requires AtHead(s, n, c) && e.AddSorted? && s.ordcolor == c
    ensures Enabled(s, e) && Arrival(s, e).Some? && var r := Arrival(s, e).value; var d := Dispatch(r, |s.queue|);
      FsNormal(r) && Bare(r) == r && Enabled(Step(s, e), d) && Behind(Step(Step(s, e), d), n, r)
  {}

  /** The sequence of the barrier is in progress and nothing is awaited; the last request has its colour. */
  ghost predicate Passing(s: State, n: nat, r: Rq) {
    && FsNormal(r) && s.Active() && s.orig.value.Normal? && s.orig.value.color == r.color
    && s.ordseq.started && s.ordseq.drain && s.completed == n
    && s.queue != [] && s.queue[|s.queue| - 1] == r
    && forall x :: 0 <= x < |s.queue| - 1 ==> s.queue[x].Normal? && !s.queue[x].fs
  }

  lemma BehindStarts(s: State, n: nat, r: Rq)
    requires Behind(s, n, r)
    ensures |s.queue| > 1 && FsNormal(r)
    ensures var b := s.queue[0]; var u := s.queue[1..];
      && Enabled(s, Start(true, false))
      && Step(s, Start(true, false)) == s.(queue := if b.sectors == 0 then [Pre] + u else [Pre, Bar] + u,
        orig := Some(b), ordseq := OrdSeq(true, true, false, b.sectors == 0, true))
  {
    hide CurSeq;
    var b, u := s.queue[0], s.queue[1..];
    CurSeqIsFirstIncomplete(OrdSeq(true, true, false, b.sectors == 0, true));
    assert [Pre] + ([Bar] + u) == [Pre, Bar] + u;
  }

  /** The flush before, and the barrier write if there is one, are taken. */
  lemma StartsPassing(s: State, t: State, n: nat, r: Rq, b: Rq, u: seq<Rq>) returns (more: seq<Event>)
    requires Behind(s, n, r) && b == s.queue[0] && u == s.queue[1..]
    requires t == s.(queue := if b.sectors == 0 then [Pre] + u else [Pre, Bar] + u,
      orig := Some(b), ordseq := OrdSeq(true, true, false, b.sectors == 0, true))
    ensures Enabled(t, Fetch) && var v := Step(t, Fetch);
      && (b.sectors == 0 ==> more == [] && Passing(v, n, r))
      && (b.sectors != 0 ==>
        && more == [Complete(Pre), Fetch] && Enabled(v, Complete(Pre)) && Enabled(Step(v, Complete(Pre)), Fetch)
        && Passing(Step(Step(v, Complete(Pre)), Fetch), n, r))
  {
    hide CurSeq;
    CurSeqIsFirstIncomplete(t.ordseq);
    var v := t.(queue := t.queue[1..], special := t.special + multiset{Pre});
    assert Enabled(t, Fetch) && Step(t, Fetch) == v;
    if b.sectors == 0 {
      assert v.queue == u;
      more := [];
    } else {
      assert v.queue == [Bar] + u;
      more := [Complete(Pre), Fetch];
      WritePassing(v, n, r, u);
    }
  }

  lemma WritePassing(v: State, n: nat, r: Rq, u: seq<Rq>)
    requires FsNormal(r) && v.queue == [Bar] + u && u != [] && u[|u| - 1] == r && forall x :: 0 <= x < |u| - 1 ==> u[x].Normal? && !u[x].fs
    requires v.Active() && v.orig.value.Normal? && v.orig.value.color == r.color && v.completed == n && Pre in v.special
    requires v.ordseq == OrdSeq(true, true, false, false, true)
    ensures Enabled(v, Complete(Pre)) && Enabled(Step(v, Complete(Pre)), Fetch)
    ensures Passing(Step(Step(v, Complete(Pre)), Fetch), n, r)
  {
    hide CurSeq;
    CurSeqIsFirstIncomplete(v.ordseq);
    CurSeqIsFirstIncomplete(OrdSeq(true, true, true, false, true));
    var w := v.(special := v.special - multiset{Pre}, ordseq := OrdSeq(true, true, true, false, true));
    assert Step(v, Complete(Pre)) == w;
    assert w.queue[1..] == u;
  }

  lemma PassingTakes(s: State, n: nat, r: Rq)
    requires Passing(s, n, r)
    ensures Enabled(s, Fetch)
    ensures if |s.queue| > 1 then Passing(Step(s, Fetch), n, r) && |Step(s, Fetch).queue| < |s.queue|
      else s.queue == [r] && s.completed == n && Late(s)
  {
    hide CurSeq;
    CurSeqIsFirstIncomplete(s.ordseq);
  }

  /** What is not a file system request is taken, and then the request of the barrier's colour. */
  lemma {:induction false} Passed(es: seq<Event>, n: nat, r: Rq) returns (more: seq<Event>)
    requires Possible(es) && Passing(After(es), n, r)
    ensures es <= more && Possible(more) && Insertions(more) == Insertions(es)
    ensures After(more).queue == [r] && After(more).completed == n && Enabled(After(more), Fetch) && Late(After(more))
    decreases |After(es).queue|
  {
    hide Possible, After, Step, Enabled, Passing, Insertions, Late;
    PassingTakes(After(es), n, r);
    if |After(es).queue| > 1 {
      Extend(es, Fetch);
      more := Passed(es + [Fetch], n, r);
    } else {
      more := es;
    }
  }

  lemma {:induction false} Dispatched(es: seq<Event>) returns (more: seq<Event>)
    requires Possible(es)
    ensures es <= more && Possible(more) && Insertions(more) == Insertions(es) && After(more).sorted == multiset{}
    decreases |After(es).sorted|
  {
    hide Possible, After, Insertions;
    if After(es).sorted == multiset{} {
      more := es;
    } else {
      var r :| r in After(es).sorted;
      Extend(es, Dispatch(r, |After(es).queue|));
      more := Dispatched(es + [Dispatch(r, |After(es).queue|)]);
    }
  }

  /** Any insertions can follow. */
  lemma {:induction false} Padded(es: seq<Event>, rest: seq<Event>) returns (more: seq<Event>)
    requires Possible(es) && forall x :: 0 <= x < |rest| ==> Insertion(rest[x])
    ensures es <= more && Possible(more) && Insertions(more) == Insertions(es) + rest
  {
    hide Possible, After, Step, Insertions;
    if rest == [] {
      more := es;
    } else {
      var e := rest[|rest| - 1];
      more := Padded(es, rest[..|rest| - 1]);
      more := Dispatched(more);
      Extend(more, e);
      more := more + [e];
      assert rest[..|rest| - 1] + [e] == rest;
    }
  }

  lemma OvertakesStays(es: seq<Event>, more: seq<Event>, i: nat, j: nat, k: nat)
    requires Overtakes(es, i, j, k) && es <= more
    ensures Overtakes(more, i, j, k)
  {
    hide After, Barriers, Arrival;
    assert more[..k] == es[..k] && more[..j] == es[..j] && more[..i] == es[..i];
    assert more[i] == es[i] && more[j] == es[j] && more[k] == es[k];
  }

  /** At request `q` the colour is that of barrier `p`. */
  lemma ColourBack(es: seq<Event>, i: nat, ins: seq<Event>, p: int, q: int)
    requires Possible(es) && i < |es| && 0 <= p < q < |ins| && OddTurns(ins, p, q)
    requires Insertions(es) == ins[..q] && Insertions(es[..i]) == ins[..p] && After(es).added == Barriers(es[..i]) + 1
    ensures After(es).ordcolor == After(es[..i]).ordcolor
  {
    hide Possible, After, Insertions, Hards, Barriers;
    PossiblePrefix(es, i);
    ColourIsParity(es);
    ColourIsParity(es[..i]);
    EpochIsBarriers(es);
    HardsGrow(ins, p, q);
  }

  /** The request comes in behind the barrier. */
  lemma LateComes(es: seq<Event>, e: Event, n: nat, c: bool) returns (all: seq<Event>, r: Rq)
    requires Possible(es) && AtHead(After(es), n, c) && FsInsertion(e) && After(es).ordcolor == c
    requires e.AddBack? ==> After(es).sorted == multiset{}
    ensures es + [e] <= all && Possible(all) && Insertions(all) == Insertions(es) + [e]
    ensures Behind(After(all), n, r) && FsNormal(r) && Arrival(After(es), e) == Some(Bare(r)) && FsNormal(Bare(r))
  {
    hide Possible, After, Step, Enabled, AtHead, Behind, Insertions, Arrival;
    var s := After(es);
    if e.AddBack? {
      LateBack(s, e, n, c);
      Extend(es, e);
      all, r := es + [e], Stopped(Arrival(s, e).value);
    } else {
      LateSorted(s, e, n, c);
      r := Arrival(s, e).value;
      Extend(es, e);
      Extend(es + [e], Dispatch(r, |s.queue|));
      all := es + [e] + [Dispatch(r, |s.queue|)];
    }
  }

  /** The sequence starts, and the request is taken during it. */
  lemma LateGoes(es: seq<Event>, n: nat, r: Rq) returns (all: seq<Event>)
    requires Possible(es) && Behind(After(es), n, r)
    ensures es <= all && Possible(all) && Insertions(all) == Insertions(es)
    ensures After(all).queue == [r] && After(all).completed == n && Enabled(After(all), Fetch) && Late(After(all))
  {
    hide Possible, After, Step, Enabled, Behind, Passing, Insertions, Late;
    var s := After(es);
    BehindStarts(s, n, r);
    Extend(es, Start(true, false));
    var t := Step(s, Start(true, false));
    var more := StartsPassing(s, t, n, r, s.queue[0], s.queue[1..]);
    all := es + [Start(true, false)];
    Extend(all, Fetch);
    all := all + [Fetch];
    if more != [] {
      Extend(all, Complete(Pre));
      Extend(all + [Complete(Pre)], Fetch);
      all := all + [Complete(Pre)] + [Fetch];
    }
    all := Passed(all, n, r);
  }

  /** Insertions that mislead have a run in which a request overtakes a barrier, and is late when it does. */
  lemma MisleadingRun(ins: seq<Event>, p: int, q: int) returns (es: seq<Event>, i: nat, j: nat, k: nat)
    requires CanBeFirst(ins, p, q) && OddTurns(ins, p, q) && forall x :: 0 <= x < |ins| ==> Insertion(ins[x])
    ensures Possible(es) && Insertions(es) == ins && Overtakes(es, i, j, k) && Late(After(es[..k]))
  {
    hide Possible, After, Step, Enabled, AtHead, Behind, Insertions, Barriers, OddTurns, Arrival, Late;
    var es0;
    es0, i := Upto(ins, p, q, q);
    var n, c, e := Barriers(es0[..i]), After(es0[..i]).ordcolor, ins[q];
    assert After(es0).added == n + 1 by { AtHeadAdded(After(es0), n, c); }
    ColourBack(es0, i, ins, p, q);
    var es1, r := LateComes(es0, e, n, c);
    var es2 := LateGoes(es1, n, r);
    Extend(es2, Fetch);
    var es3 := es2 + [Fetch];
    j, k := |es0|, |es2|;
    assert es3[..k] == es2 && es3[..j] == es0 && es3[..i] == es0[..i] && es3[j] == e && es3[i] == es0[i];
    assert Overtakes(es3, i, j, k);
    var rest := ins[q + 1..];
    es := Padded(es3, rest);
    OvertakesStays(es3, es, i, j, k);
    assert ins[..q] + [e] + rest == ins;
    assert es[..k] == es2;
  }

  lemma AtHeadAdded(s: State, n: nat, c: bool)
    requires AtHead(s, n, c)
    ensures s.added == n + 1
  {}

  /** Some run lets a request overtake a barrier exactly if one that can come first behind the barrier has the
      barrier's colour. */
  lemma OrderingIff(ins: seq<Event>)
    requires forall x :: 0 <= x < |ins| ==> Insertion(ins[x])
    ensures Broken(ins) <==> Misleading(ins)
  {
    hide Possible, Insertions, Overtakes, Late;
    if Misleading(ins) {
      var p, q :| CanBeFirst(ins, p, q) && OddTurns(ins, p, q);
      var es, i, j, k := MisleadingRun(ins, p, q);
    } else {
      NotMisleadingNotBroken(ins);
    }
  }

  /** One hard request that is not a file system one is enough, at the back or at the front. */
  lemma OneHardBreaks(b: Event, h: Event, e: Event)
    requires Order.FsBarrier(b) && HardInsertion(h) && FsInsertion(e)
    ensures Broken([b, h, e])
  {
    hide Possible, Insertions, Overtakes, Late;
    var ins := [b, h, e];
    assert ins[..2] == [b, h] && [b, h][..1] == [b] && [b][..0] == [];
    assert Hards([b]) == 0;
    assert Hards(ins[..2]) == 1 && Hards(ins[..0]) == 0;
    var es, i, j, k := MisleadingRun(ins, 0, 2);
  }
}
