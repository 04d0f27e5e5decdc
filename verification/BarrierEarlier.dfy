/** Whole runs: what was queued before a barrier is done before it, and the queue goes on, as long as requests
    have the colour of the barrier that follows them. */
module BarrierEarlier {
  import opened Options
  import opened BarrierModel
  import opened BarrierSafety
  import opened BarrierCore
  import opened BarrierRuns
  import opened BarrierIff
  import Order = BarrierOrder
  import opened BarrierStrand
  import opened BarrierTint

  predicate PlainInsertion(e: Event) { FsInsertion(e) && !Order.FsBarrier(e) }

  /** Barrier `q` is the next one after request `p`. */
  ghost predicate EndsEpoch(ins: seq<Event>, p: int, q: int) {
    && 0 <= p < q < |ins| && PlainInsertion(ins[p]) && Order.FsBarrier(ins[q])
    && forall x :: p < x < q ==> !Order.FsBarrier(ins[x])
  }

  /** The colour turns an odd number of times between a request and the next barrier, so that they differ. */
  ghost predicate Stranding(ins: seq<Event>) {
    exists p, q :: EndsEpoch(ins, p, q) && OddTurns(ins, p, q)
  }

  /** Neither a request before a barrier has the wrong colour, nor the first one after it. */
  ghost predicate Faithful(ins: seq<Event>) { !Misleading(ins) && !Stranding(ins) }

  lemma StrandingGrows(ins: seq<Event>, more: seq<Event>)
    requires Stranding(ins)
    ensures Stranding(ins + more)
  {
    var p, q :| EndsEpoch(ins, p, q) && OddTurns(ins, p, q);
    var all := ins + more;
    assert all[..q] == ins[..q] && all[..p] == ins[..p];
    assert forall x :: 0 <= x < |ins| ==> all[x] == ins[x];
    assert EndsEpoch(all, p, q) && OddTurns(all, p, q);
  }

  lemma FaithfulPrefix(ins: seq<Event>, more: seq<Event>)
    requires Faithful(ins + more)
    ensures Faithful(ins)
  {
    hide Misleading, Stranding;
    if Misleading(ins) {
      MisleadingGrows(ins, more);
    }
    if Stranding(ins) {
      StrandingGrows(ins, more);
    }
  }

  /** An even number of turns before every file system request is enough. */
  lemma EvenIsFaithful(ins: seq<Event>)
    requires Even(ins)
    ensures Faithful(ins)
  {
    hide Hards, Misleading;
    EvenNotMisleading(ins);
    forall p, q | EndsEpoch(ins, p, q)
      ensures !OddTurns(ins, p, q)
    {
      assert FsInsertion(ins[p]) && FsInsertion(ins[q]);
    }
  }

  // The colours of an epoch

  /** The colours of the requests queued since the last barrier. */
  function Tints(es: seq<Event>): set<bool> {
    if es == [] then {} else NextTints(After(es[..|es| - 1]), Tints(es[..|es| - 1]), es[|es| - 1])
  }

  lemma {:induction false} NoneAfterLast(ins: seq<Event>)
    ensures forall x :: LastBarrier(ins) < x < |ins| ==> !Order.FsBarrier(ins[x])
  {
    if ins != [] {
      NoneAfterLast(ins[..|ins| - 1]);
      assert forall x :: 0 <= x < |ins| - 1 ==> ins[..|ins| - 1][x] == ins[x];
    }
  }

  /** Where such a colour comes from. */
  lemma {:induction false} TintFrom(es: seq<Event>, c: bool) returns (p: int)
    requires Possible(es) && c in Tints(es)
    ensures var ins := Insertions(es);
      && LastBarrier(ins) < p < |ins| && PlainInsertion(ins[p]) && c == ((Barriers(es) + Hards(ins[..p])) % 2 == 1)
  {
    hide Enabled, Step, Hards, LastBarrier;
    var init, e := es[..|es| - 1], es[|es| - 1];
    var ins := Insertions(init);
    assert Insertions(es) == ins + if Insertion(e) then [e] else [];
    if PlainInsertion(e) && c == After(init).ordcolor {
      p := |ins|;
      ColourIsParity(init);
      assert Insertions(es)[..p] == ins;
      LastBelow(ins, e);
      LastIn(ins);
    } else {
      p := TintFrom(init, c);
      TintStays(ins, e, p);
    }
  }

  lemma TintStays(ins: seq<Event>, e: Event, p: int)
    requires LastBarrier(ins) < p < |ins| && !Order.FsBarrier(e) && p >= 0
    ensures var all := ins + if Insertion(e) then [e] else [];
      all[..p] == ins[..p] && all[p] == ins[p] && LastBarrier(all) == LastBarrier(ins)
  {
    hide LastBarrier;
    if Insertion(e) {
      LastBelow(ins, e);
    } else {
      assert ins + [] == ins;
    }
  }

  lemma LastIn(ins: seq<Event>)
    ensures LastBarrier(ins) < |ins|
  {}

  lemma LastBelow(ins: seq<Event>, e: Event)
    requires !Order.FsBarrier(e)
    ensures LastBarrier(ins + [e]) == LastBarrier(ins)
  {
    assert (ins + [e])[..|ins|] == ins;
  }

  /** If a barrier does not strand, all requests of its epoch have its colour. */
  lemma OneTint(es: seq<Event>, e: Event)
    requires Possible(es) && Order.FsBarrier(e) && !Stranding(Insertions(es) + [e])
    ensures Tints(es) <= {After(es).ordcolor}
  {
    hide Possible, After, Tints, Insertions, Hards;
    var ins := Insertions(es);
    forall c | c in Tints(es)
      ensures c == After(es).ordcolor
    {
      var p := TintFrom(es, c);
      var all, q := ins + [e], |ins|;
      NoneAfterLast(ins);
      ColourIsParity(es);
      assert all[..q] == ins && all[..p] == ins[..p];
      assert forall x :: 0 <= x < |ins| ==> all[x] == ins[x];
      assert EndsEpoch(all, p, q) && !OddTurns(all, p, q);
      HardsGrow(ins, p, q);
      assert ins[..q] == ins;
    }
  }

  /** What is known after every run with faithful insertions. */
  lemma {:induction false} RunInv(es: seq<Event>)
    requires Possible(es) && Faithful(Insertions(es))
    ensures Inv(After(es)) && Sided(After(es)) && Awaiting(After(es)) && Tinted(After(es), Tints(es))
  {
    hide Inv, Sided, Awaiting, Enabled, Step, Misleading, Stranding, Tinted;
    RunHeld(es);
    if es == [] {
      InitialInv();
      InitialAwaiting();
      InitialTinted();
    } else {
      var init, e := es[..|es| - 1], es[|es| - 1];
      FaithfulPrefix(Insertions(init), if Insertion(e) then [e] else []);
      RunInv(init);
      RunHeld(init);
      RunCore(init);
      if Order.FsBarrier(e) {
        OneTint(init, e);
      }
      StepInv(After(init), e);
      AwaitingStep(After(init), e);
      StepTinted(After(init), e, Tints(init));
    }
    TintedSided(After(es), Tints(es));
  }

  /** Once a barrier is complete, so is every file system request queued before it. */
  lemma EarlierRequestsDone(es: seq<Event>, j: nat, i: nat)
    requires Possible(es) && Faithful(Insertions(es)) && j < i < |es|
    requires Order.FsBarrier(es[i]) && After(es).completed > Barriers(es[..i])
    requires Added(es, j).Some? && Plain(Added(es, j).value)
    ensures Held(After(es), Added(es, j).value) == 0
  {
    hide Inv, Sided, Awaiting, Step, Enabled, Held, Faithful;
    PossiblePrefix(es, j);
    RunInv(es);
    EpochIsBarriers(es[..j]);
    BarriersGrow(es, j, i);
    NoneHeld(After(es), Added(es, j).value);
  }

  /** No flush and no barrier write is issued for a barrier before every file system request
      queued earlier is complete. */
  lemma BarrierWaits(es: seq<Event>, j: nat, i: nat, k: nat)
    requires Possible(es) && Faithful(Insertions(es)) && j < i < k < |es|
    requires Order.FsBarrier(es[i]) && Added(es, j).Some? && Plain(Added(es, j).value)
    requires es[k].Fetch? && InProgress(After(es[..k]), Barriers(es[..i]))
    requires After(es[..k]).queue != [] && !After(es[..k]).queue[0].Normal?
    ensures Held(After(es[..k]), Added(es, j).value) == 0
  {
    hide Inv, Sided, Awaiting, Step, Enabled, Held, Faithful;
    PossiblePrefix(es, j);
    PossiblePrefix(es, k);
    var more := InsertionsPrefix(es, k);
    FaithfulPrefix(Insertions(es[..k]), more);
    RunInv(es[..k]);
    EpochIsBarriers(es[..j]);
    BarriersGrow(es, j, i);
    FetchProxyDrained(After(es[..k]));
    NoneHeld(After(es[..k]), Added(es, j).value);
  }

  /** Barrier number `n` is in progress. */
  predicate InProgress(s: State, n: nat) { s.Active() && s.orig.value.Normal? && s.orig.value.epoch == n }

  lemma FetchProxyDrained(s: State)
    requires Inv(s) && Sided(s) && Enabled(s, Fetch) && !s.queue[0].Normal?
    ensures s.Active() && s.ordseq.drain && InProgress(s, s.completed)
  {
    hide QueueOk, SortedOk, FlightOk, ProxiesOk, EarlierOk, Sided, Allowed;
    HeadAllowed(s);
  }

  /** Nothing is with the driver, and the queue cannot go on. */
  ghost predicate Wedged(s: State) {
    && s.issued == multiset{} && s.special == multiset{}
    && (if s.queue == [] then s.Active() else !Enabled(s, Fetch) && !Enabled(s, Start(true, true)))
  }

  /** The queue never wedges. */
  lemma RunProgress(es: seq<Event>)
    requires Possible(es) && Faithful(Insertions(es))
    ensures !Wedged(After(es))
  {
    hide Inv, Sided, Enabled, Step, Faithful;
    RunInv(es);
    if After(es).issued == multiset{} && After(es).special == multiset{} {
      Progress(After(es));
    }
  }

  // At any colour

  /** No barrier comes back from the driver before an earlier request of its colour. */
  ghost predicate NeverCutsIn(es: seq<Event>) {
    forall x :: 0 <= x < |es| ==> !CutsIn(After(es[..x]), es[x])
  }

  /** The state after every part of the run is as it should be. */
  ghost predicate AlwaysStrands(es: seq<Event>) {
    forall x :: 0 <= x <= |es| ==> Strands(After(es[..x]))
  }

  lemma {:induction false} RunStrands(es: seq<Event>)
    requires Possible(es) && NeverCutsIn(es)
    ensures Strands(After(es))
  {
    hide Strands, Enabled, Step, CutsIn;
    if es == [] {
      InitialStrands();
    } else {
      var init := es[..|es| - 1];
      assert forall x :: 0 <= x < |init| ==> init[..x] == es[..x] && init[x] == es[x];
      RunStrands(init);
      RunCore(init);
      StepStrandsIff(After(init), es[|es| - 1]);
    }
  }

  /** That is so all along exactly if none does. */
  lemma RunStrandsIff(es: seq<Event>)
    requires Possible(es)
    ensures AlwaysStrands(es) <==> NeverCutsIn(es)
  {
    hide Strands, Enabled, Step, CutsIn, Possible, After;
    if NeverCutsIn(es) {
      forall x | 0 <= x <= |es|
        ensures Strands(After(es[..x]))
      {
        PossiblePrefix(es, x);
        assert forall y :: 0 <= y < x ==> es[..x][..y] == es[..y] && es[..x][y] == es[y];
        RunStrands(es[..x]);
      }
    } else {
      var x :| 0 <= x < |es| && CutsIn(After(es[..x]), es[x]);
      StrandsNext(es, x);
    }
  }

  lemma StrandsNext(es: seq<Event>, x: nat)
    requires Possible(es) && x < |es|
    ensures Strands(After(es[..x])) && Strands(After(es[..x + 1])) ==> !CutsIn(After(es[..x]), es[x])
  {
    hide Strands, Enabled, Step, CutsIn;
    PossiblePrefix(es, x);
    RunCore(es[..x]);
    Recorded(es[..x], es[x]);
    assert es[..x] + [es[x]] == es[..x + 1];
    if Strands(After(es[..x])) {
      StepStrandsIff(After(es[..x]), es[x]);
    }
  }

  /** Whatever the colours: no flush and no barrier write is handed to the driver while it has a file system
      request queued before that barrier. */
  lemma StepsWaitForDriver(es: seq<Event>, k: nat)
    requires Possible(es) && k < |es| && es[k].Fetch? && NeverCutsIn(es[..k])
    requires After(es[..k]).queue != [] && !After(es[..k]).queue[0].Normal?
    ensures var s := After(es[..k]); s.Active() && s.orig.value.Normal?
    ensures var s := After(es[..k]); forall r :: r in s.issued && r.Normal? ==> Later(r, s.orig.value.epoch)
  {
    hide Step, Core, Clear, Fronted, NoOwn, Dated, Allowed;
    PossiblePrefix(es, k);
    RunCore(es[..k]);
    RunStrands(es[..k]);
    FetchDrained(After(es[..k]));
  }

  lemma FetchDrained(s: State)
    requires Core(s) && s.queue != [] && !s.queue[0].Normal? && Allowed(s, s.queue[0])
    ensures s.Active() && s.ordseq.drain
  {
    hide Core, Allowed;
    ProxyIsCurrent(s);
  }

  /** If the insertions do not mislead, no barrier ever comes back. */
  lemma NoneComesBack(es: seq<Event>)
    requires Possible(es) && !Misleading(Insertions(es))
    ensures forall x :: 0 <= x < |es| && es[x].Requeue? ==> !es[x].r.Barrier()
    ensures NeverCutsIn(es)
  {
    hide Misleading, Possible, Insertions, After, Own;
    forall x | 0 <= x < |es|
      ensures es[x].Requeue? ==> !es[x].r.Barrier()
    {
      PossiblePrefix(es, x);
      var more := InsertionsPrefix(es, x);
      if Misleading(Insertions(es[..x])) {
        MisleadingGrows(Insertions(es[..x]), more);
      }
      NotNow(es[..x], es[x]);
    }
  }

  lemma NotNow(es: seq<Event>, e: Event)
    requires Possible(es) && !Misleading(Insertions(es)) && Enabled(After(es), e)
    ensures e.Requeue? ==> !e.r.Barrier()
  {
    hide Misleading, Possible, After, Insertions, Phase, LastColour;
    RunHeld(es);
    RunCore(es);
    NoBarrierOut(After(es), Phase(Insertions(es)), LastColour(es));
  }

  lemma NoBarrierOut(s: State, phase: nat, last: bool)
    requires Core(s) && Order.Held(s, phase, last)
    ensures forall r :: r in s.issued || r in s.special ==> !r.Barrier()
  {
    hide Once, ProxiesOk;
  }

  /** With insertions that do not mislead, that is so in every run, and no request is late. */
  lemma NeverLate(es: seq<Event>)
    requires Possible(es) && !Misleading(Insertions(es))
    ensures !Late(After(es))
  {
    hide Misleading, Possible, Insertions, After, Phase;
    NoneComesBack(es);
    RunCore(es);
    RunStrands(es);
    RunHeld(es);
    HeldNotLate(After(es), Phase(Insertions(es)), LastColour(es));
  }

  lemma HeldNotLate(s: State, phase: nat, last: bool)
    requires Core(s) && Strands(s) && Order.Held(s, phase, last)
    ensures !Late(s)
  {
    hide Kinds, Once, CurSeq, Clear, Fronted, Dated, Waiting;
    if s.Active() && s.queue != [] && Keyed(s.queue[0]) {
      CurSeqIsFirstIncomplete(s.ordseq);
      var h := s.queue[0];
      assert Queued(s.queue, h);
      assert Pending(s, s.completed, s.orig.value.color);
      assert Later(h, s.completed) ==> FirstLater(s.queue, s.completed, 0);
    }
  }
}
