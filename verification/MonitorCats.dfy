/** What every run of the monitor makes of a category: whom it binds, and who may own it. */
module MonitorCats {
  import opened Labels
  import opened MonitorModel
  import opened MonitorRuns

  // Categories that a client does not own bind it and all it forks

  /** A secrecy category that cannot be shed, or an integrity category that cannot be gained. */
  ghost predicate Bound(k: Cat, lbl: Label) {
    (Secret(k) ==> k in lbl) && (Trust(k) ==> k !in lbl)
  }

  /** Client `a` and all its descendants are bound by `k`. */
  ghost predicate Confined(s: State, a: nat, k: Cat) {
    && |s.line| == |s.clients|
    && forall i :: 0 <= i < |s.clients| && a in s.line[i] ==> Bound(k, s.clients[i].lbl) && k !in Owned(s.clients[i].own)
  }

  /** The guard: a creation by client `a` or a descendant of it that comes out as `k`. */
  ghost predicate Hands(s: State, e: Event, a: nat, k: Cat)
    requires Enabled(s, e) && |s.line| == |s.clients|
  {
    !s.halted && e.Create? && a in s.line[e.i] && FirstBlank(s.clients[e.i].own, 0) < 8 && NextCat(s.catGen, e.t).0 == k
  }

  /** What flows from a bound label is bound, unless the category is owned. */
  lemma FlowBound(k: Cat, l1: Label, o1: Label, l2: Label)
    requires Bound(k, l1) && k !in Owned(o1) && Flows(l1, o1, l2)
    ensures Bound(k, l2)
  {
    if Secret(k) {
      assert k in Secrets(l1) - Owned(o1);
    }
    if Trust(k) {
      assert k !in Trusts(l1);
      assert k in l2 ==> k in Trusts(l2) - Owned(o1);
    }
  }

  lemma CreatedConfinedIff(s: State, i: nat, t: Cat, a: nat, k: Cat)
    requires i < |s.clients| && Confined(s, a, k) && k != 0 && !s.halted
    ensures Confined(Created(s, i, t), a, k) <==> !Hands(s, Create(i, t), a, k)
  {
    hide Bound, NextCat;
    var s' := Created(s, i, t);
    var c := s.clients[i];
    var b := FirstBlank(c.own, 0);
    var cat := NextCat(s.catGen, t).0;
    if b < 8 {
      OwnedNow(c.own, b, cat);
      assert s'.clients[i].own == c.own[b := cat] && s'.clients[i].lbl == c.lbl;
      assert forall j :: 0 <= j < |s.clients| && j != i ==> s'.clients[j] == s.clients[j];
    }
  }

  lemma OwnedNow(own: Label, k: nat, cat: Cat)
    requires k < 8 && own[k] == 0
    ensures Owned(own[k := cat]) == if cat == 0 then Owned(own) else Owned(own) + {cat}
  {
    if cat == 0 {
      assert own[k := cat] == own;
    } else {
      FilledOwns(own, k, cat);
    }
  }

  lemma ForkedConfined(s: State, i: nat, pid: nat, lbl: Label, own: Label, a: nat, k: Cat)
    requires i < |s.clients| && Confined(s, a, k) && a < s.next
    ensures Confined(Forked(s, i, pid, lbl, own), a, k)
  {
    hide Flows, Bound, Owned, UnitProts;
    var c := s.clients[i];
    if MayFork(c, lbl, own) {
      if a in s.line[i] {
        FlowBound(k, c.lbl, c.own, lbl);
      }
    }
  }

  /** One step keeps the family of `a` bound exactly if it does not hand out `k` within the family. */
  lemma StepConfinedIff(s: State, e: Event, a: nat, k: Cat)
    requires Enabled(s, e) && Confined(s, a, k) && k != 0 && a < s.next
    ensures Confined(Step(s, e), a, k) <==> !Hands(s, e, a, k)
    ensures a < Step(s, e).next
  {
    hide Flows, Bound, OtherProts, UnitProts, NextCat, Created, Forked, Joined, Owned, FirstBlank;
    if s.halted {
    } else if e.Create? {
      CreatedConfinedIff(s, e.i, e.t, a, k);
      CreatedNext(s, e.i, e.t);
    } else if e.Fork? {
      ForkedConfined(s, e.i, e.pid, e.lbl, e.own, a, k);
      ForkedNext(s, e.i, e.pid, e.lbl, e.own);
    } else if e.Join? {
      JoinedConfined(s, e.i, e.pid, a, k);
    }
  }

  lemma JoinedConfined(s: State, i: nat, pid: nat, a: nat, k: Cat)
    requires i < |s.clients| && Confined(s, a, k)
    ensures Confined(Joined(s, i, pid), a, k) && Joined(s, i, pid).next == s.next
  {
    hide Joined, Owned, Bound;
    var s' := Joined(s, i, pid);
    JoinedKeeps(s, i, pid);
    forall j: nat | j < |s'.clients| && a in s'.line[j]
      ensures Bound(k, s'.clients[j].lbl) && k !in Owned(s'.clients[j].own)
    {
      var j' := JoinedAt(s, i, pid, j);
    }
  }

  lemma CreatedNext(s: State, i: nat, t: Cat)
    requires i < |s.clients| == |s.line|
    ensures Created(s, i, t).next == s.next
  {
    hide NextCat, FirstBlank;
  }

  lemma ForkedNext(s: State, i: nat, pid: nat, lbl: Label, own: Label)
    requires i < |s.clients| == |s.line|
    ensures Forked(s, i, pid, lbl, own).next >= s.next
  {
    hide Flows, Owned, UnitProts;
  }

  ghost predicate AlwaysConfined(s: State, es: seq<Event>, a: nat, k: Cat)
    requires Possible(s, es)
    decreases |es|
  {
    Confined(s, a, k) && (es == [] || AlwaysConfined(Step(s, es[0]), es[1..], a, k))
  }

  ghost predicate NeverHands(s: State, es: seq<Event>, a: nat, k: Cat)
    requires Possible(s, es)
    decreases |es|
  {
    es == [] || (!Hands(s, es[0], a, k) && NeverHands(Step(s, es[0]), es[1..], a, k))
  }

  /**
   * Over every run: a client's family keeps a secrecy category it has and does not own, and never gains an
   * integrity category it lacks, exactly as long as no creation within the family comes out as that category.
   */
  lemma {:induction false} RunConfinedIff(s: State, es: seq<Event>, a: nat, k: Cat)
    requires Possible(s, es) && Confined(s, a, k) && k != 0 && a < s.next
    ensures AlwaysConfined(s, es, a, k) <==> NeverHands(s, es, a, k)
    decreases |es|
  {
    hide Confined, Hands, Step, Enabled;
    if es != [] {
      ConfinedLines(s, a, k);
      StepConfinedIff(s, es[0], a, k);
      if Confined(Step(s, es[0]), a, k) {
        RunConfinedIff(Step(s, es[0]), es[1..], a, k);
      } else {
        AlwaysFirst(Step(s, es[0]), es[1..], a, k);
      }
    }
  }

  lemma ConfinedLines(s: State, a: nat, k: Cat)
    requires Confined(s, a, k)
    ensures |s.line| == |s.clients|
  {}

  lemma AlwaysFirst(s: State, es: seq<Event>, a: nat, k: Cat)
    requires Possible(s, es)
    ensures AlwaysConfined(s, es, a, k) ==> Confined(s, a, k)
  {}

  /** Every creation comes before the generator wraps around: the first 255. */
  ghost predicate Unwrapped(s: State, es: seq<Event>)
    requires Possible(s, es)
    decreases |es|
  {
    es == [] || ((es[0].Create? ==> s.catGen != 0xff) && Unwrapped(Step(s, es[0]), es[1..]))
  }

  lemma GenStep(s: State, e: Event)
    requires |s.line| == |s.clients| && Enabled(s, e)
    ensures Step(s, e).catGen == if e.Create? && !s.halted then NextCat(s.catGen, e.t).1 else s.catGen
  {
    hide NextCat, Flows, Owned, OtherProts, UnitProts, FirstBlank;
  }

  /** In such a run no category that is past is handed out again, whatever types are asked for, but the one
      that the exhausted generator repeats. */
  lemma {:induction false} PastNeverHanded(s: State, es: seq<Event>, a: nat, k: Cat)
    requires Possible(s, es) && Unwrapped(s, es) && Past(k, s.catGen) && k != 0xff
    ensures NeverHands(s, es, a, k)
    decreases |es|
  {
    hide Step, Past, NextCat, Enabled, FirstBlank;
    if es != [] {
      var e := es[0];
      GenStep(s, e);
      if e.Create? {
        NewIff(s.catGen, e.t);
        ExhaustedCat(s.catGen, e.t);
        PastStays(s.catGen, e.t, k);
      }
      PastNeverHanded(Step(s, e), es[1..], a, k);
    }
  }

  lemma {:induction false} ConfinedLast(s: State, es: seq<Event>, a: nat, k: Cat)
    requires Possible(s, es) && AlwaysConfined(s, es, a, k)
    ensures Confined(After(s, es), a, k)
    decreases |es|
  {
    hide Confined, Step;
    if es != [] {
      ConfinedLast(Step(s, es[0]), es[1..], a, k);
    }
  }

  /** A category that was made before binds a family to the end of every run that does not wrap around. */
  lemma RunConfined(s: State, es: seq<Event>, a: nat, k: Cat)
    requires Possible(s, es) && Unwrapped(s, es) && Confined(s, a, k) && k != 0 && a < s.next
    requires Past(k, s.catGen) && k != 0xff
    ensures Confined(After(s, es), a, k)
  {
    hide Possible, Unwrapped, Confined, Past, After, NeverHands, AlwaysConfined;
    PastNeverHanded(s, es, a, k);
    RunConfinedIff(s, es, a, k);
    ConfinedLast(s, es, a, k);
  }

  /** What the exhausted generator repeats binds nobody with a blank slot. */
  lemma ExhaustedFrees(s: State, i: nat, t: Cat, a: nat)
    requires i < |s.clients| && Confined(s, a, 0xff) && !s.halted && 0x7f <= s.catGen < 0xff
    requires a in s.line[i] && FirstBlank(s.clients[i].own, 0) < 8
    ensures !Confined(Created(s, i, t), a, 0xff)
  {
    hide Confined, Created, NextCat, FirstBlank;
    ExhaustedCat(s.catGen, t);
    ConfinedLines(s, a, 0xff);
    CreatedConfinedIff(s, i, t, a, 0xff);
  }

  /** So, as long as the protections hold, no descendant may write to memory without that secrecy category, or
      with that integrity category. */
  lemma WritesConfined(s: State, a: nat, k: Cat, i: nat, u: MemUnit)
    requires ProtsHold(s) && Confined(s, a, k) && i < |s.clients| && a in s.line[i] && u in s.units
    ensures (s.clients[i].pid, u.addr) in s.prots
    ensures s.prots[(s.clients[i].pid, u.addr)].ReadWrite? ==> Bound(k, u.lbl)
  {
    hide Flows, Bound;
    var c := s.clients[i];
    assert c in s.clients && PairHolds(s, c, u);
    if s.prots[(c.pid, u.addr)].ReadWrite? {
      FlowBound(k, c.lbl, c.own, u.lbl);
    }
  }

  // Whoever owns a category descends from everyone who made it

  ghost predicate Descends(s: State) {
    && |s.line| == |s.clients|
    && forall a, k, i :: (a, k) in s.made && 0 <= i < |s.clients| && k in Owned(s.clients[i].own) ==> a in s.line[i]
  }

  /** The category `k` was made by someone `i` does not descend from, or is owned by someone who does not
      descend from `i`. */
  ghost predicate Foreign(s: State, i: nat, k: Cat)
    requires i < |s.clients| == |s.line|
  {
    || (exists a :: (a, k) in s.made && a !in s.line[i])
    || (exists j :: 0 <= j < |s.clients| && k in Owned(s.clients[j].own) && Self(s, i) !in s.line[j])
  }

  /** The guard: a creation that comes out as a category which is foreign to its creator. */
  ghost predicate Clashes(s: State, e: Event)
    requires Enabled(s, e) && |s.line| == |s.clients|
  {
    && !s.halted && e.Create? && FirstBlank(s.clients[e.i].own, 0) < 8
    && NextCat(s.catGen, e.t).0 != 0 && Foreign(s, e.i, NextCat(s.catGen, e.t).0)
  }

  lemma CreatedDescendsIff(s: State, i: nat, t: Cat)
    requires Provenance(s) && Descends(s) && i < |s.clients| && !s.halted
    ensures Descends(Created(s, i, t)) <==> !Clashes(s, Create(i, t))
  {
    hide NextCat, Traced;
    var s' := Created(s, i, t);
    var c := s.clients[i];
    var b := FirstBlank(c.own, 0);
    var cat := NextCat(s.catGen, t).0;
    if b < 8 {
      OwnedNow(c.own, b, cat);
      assert s'.clients[i].own == c.own[b := cat];
      assert forall j :: 0 <= j < |s.clients| && j != i ==> s'.clients[j] == s.clients[j];
      if cat != 0 {
        CreatedForeign(s, s', i, cat);
      }
    }
  }

  lemma CreatedForeign(s: State, s': State, i: nat, cat: Cat)
    requires Descends(s) && i < |s.clients| && s.line[i] != [] && cat != 0
    requires s'.line == s.line && |s'.clients| == |s.clients| && s'.made == s.made + {(Self(s, i), cat)}
    requires Owned(s'.clients[i].own) == Owned(s.clients[i].own) + {cat}
    requires forall j :: 0 <= j < |s.clients| && j != i ==> s'.clients[j] == s.clients[j]
    ensures Descends(s') <==> !Foreign(s, i, cat)
  {
    hide Owned;
    var x := Self(s, i);
    assert x in s.line[i];
    if Foreign(s, i, cat) {
      if a :| (a, cat) in s.made && a !in s.line[i] {
        assert (a, cat) in s'.made && cat in Owned(s'.clients[i].own);
      } else {
        var j :| 0 <= j < |s.clients| && cat in Owned(s.clients[j].own) && x !in s.line[j];
        assert (x, cat) in s'.made && cat in Owned(s'.clients[j].own);
      }
    } else {
      forall a, k, j | (a, k) in s'.made && 0 <= j < |s'.clients| && k in Owned(s'.clients[j].own)
        ensures a in s'.line[j]
      {
        if (a, k) in s.made && k in Owned(s.clients[j].own) {
        } else if (a, k) in s.made {
          assert j == i && k == cat;
        } else if k in Owned(s.clients[j].own) {
          assert a == x && k == cat;
        }
      }
    }
  }

  lemma ForkedDescends(s: State, i: nat, pid: nat, lbl: Label, own: Label)
    requires Descends(s) && i < |s.clients|
    ensures Descends(Forked(s, i, pid, lbl, own))
  {
    hide Flows, UnitProts;
    var s' := Forked(s, i, pid, lbl, own);
    if MayFork(s.clients[i], lbl, own) {
      forall a, k, j | (a, k) in s'.made && 0 <= j < |s'.clients| && k in Owned(s'.clients[j].own)
        ensures a in s'.line[j]
      {
        var parent := if j < |s.clients| then j else i;
        assert k in Owned(s.clients[parent].own) && a in s.line[parent];
      }
    }
  }

  lemma JoinedDescends(s: State, i: nat, pid: nat)
    requires Descends(s) && i < |s.clients|
    ensures Descends(Joined(s, i, pid))
  {
    hide Joined, Owned;
    var s' := Joined(s, i, pid);
    JoinedKeeps(s, i, pid);
    forall a, k, j: nat | (a, k) in s'.made && j < |s'.clients| && k in Owned(s'.clients[j].own)
      ensures a in s'.line[j]
    {
      var j' := JoinedAt(s, i, pid, j);
    }
  }

  /** One step keeps owners descending from makers exactly if it does not clash. */
  lemma StepDescendsIff(s: State, e: Event)
    requires Inv(s) && Descends(s) && Enabled(s, e)
    ensures Descends(Step(s, e)) <==> !Clashes(s, e)
  {
    hide Flows, OtherProts, UnitProts, NextCat, Created, Forked, Joined, Owned, FirstBlank, Traced;
    if s.halted {
    } else if e.Create? {
      CreatedDescendsIff(s, e.i, e.t);
    } else if e.Fork? {
      ForkedDescends(s, e.i, e.pid, e.lbl, e.own);
    } else if e.Join? {
      JoinedDescends(s, e.i, e.pid);
    }
  }

  ghost predicate AlwaysDescends(s: State, es: seq<Event>)
    requires Possible(s, es)
    decreases |es|
  {
    Descends(s) && (es == [] || AlwaysDescends(Step(s, es[0]), es[1..]))
  }

  ghost predicate NeverClashes(s: State, es: seq<Event>)
    requires Possible(s, es)
    decreases |es|
  {
    es == [] || (!Clashes(s, es[0]) && NeverClashes(Step(s, es[0]), es[1..]))
  }

  /** Over every run: owners descend from makers all along exactly if no creation clashes. */
  lemma {:induction false} RunDescendsIff(s: State, es: seq<Event>)
    requires Inv(s) && Descends(s) && Possible(s, es)
    ensures AlwaysDescends(s, es) <==> NeverClashes(s, es)
    decreases |es|
  {
    hide Inv, Descends, Clashes, Step, Enabled;
    if es != [] {
      StepInv(s, es[0]);
      StepDescendsIff(s, es[0]);
      if Descends(Step(s, es[0])) {
        RunDescendsIff(Step(s, es[0]), es[1..]);
      } else {
        DescendsFirst(Step(s, es[0]), es[1..]);
      }
    }
  }

  lemma DescendsFirst(s: State, es: seq<Event>)
    requires Possible(s, es)
    ensures AlwaysDescends(s, es) ==> Descends(s)
  {}

  lemma {:induction false} DescendsLast(s: State, es: seq<Event>)
    requires Possible(s, es) && AlwaysDescends(s, es)
    ensures Descends(After(s, es))
    decreases |es|
  {
    hide Descends, Step;
    if es != [] {
      DescendsLast(Step(s, es[0]), es[1..]);
    }
  }

  // Clean creations do not clash

  ghost predicate CleanRun(s: State, es: seq<Event>)
    requires Possible(s, es)
    decreases |es|
  {
    es == [] || ((es[0].Create? && !s.halted ==> Clean(s.catGen, es[0].t)) && CleanRun(Step(s, es[0]), es[1..]))
  }

  ghost predicate MadePast(s: State) {
    forall a, k :: (a, k) in s.made ==> Past(k, s.catGen)
  }

  lemma CleanStep(s: State, e: Event)
    requires Inv(s) && MadePast(s) && Enabled(s, e) && (e.Create? && !s.halted ==> Clean(s.catGen, e.t))
    ensures !Clashes(s, e) && MadePast(Step(s, e))
  {
    hide Past, Clean, NextCat, FirstBlank, Flows, OtherProts, UnitProts, Owned;
    if e.Create? && !s.halted {
      var cat := NextCat(s.catGen, e.t).0;
      CleanIsPast(s.catGen, e.t);
      assert forall a :: (a, cat) !in s.made;
      forall j | 0 <= j < |s.clients|
        ensures cat !in Owned(s.clients[j].own)
      {
        assert !Traced(s, j, cat);
      }
      var s' := Step(s, e);
      forall a, k | (a, k) in s'.made
        ensures Past(k, s'.catGen)
      {
        if (a, k) in s.made { PastStays(s.catGen, e.t, k); }
      }
    }
  }

  lemma {:induction false} CleanNeverClashes(s: State, es: seq<Event>)
    requires Inv(s) && MadePast(s) && Possible(s, es) && CleanRun(s, es)
    ensures NeverClashes(s, es)
    decreases |es|
  {
    hide Inv, MadePast, Clashes, Step, Enabled, Clean;
    if es != [] {
      StepInv(s, es[0]);
      CleanStep(s, es[0]);
      CleanNeverClashes(Step(s, es[0]), es[1..]);
    }
  }

  /** In every clean run, whoever owns a category is its one maker or descends from that client by forks. */
  lemma OwnersDescend(pid: nat, es: seq<Event>)
    requires Possible(Initial(pid), es) && CleanRun(Initial(pid), es)
    ensures Descends(After(Initial(pid), es))
  {
    hide Possible, After, CleanRun, NeverClashes, AlwaysDescends, Inv;
    InitialInv(pid);
    CleanNeverClashes(Initial(pid), es);
    RunDescendsIff(Initial(pid), es);
    DescendsLast(Initial(pid), es);
  }

  // Creations that clash

  /** A child asks for a type with extra bits, and gets the category that comes to its parent two turns later. */
  lemma TypeBitsClash(p: nat, q: nat)
    ensures var es := [Fork(0, q, BLANK, BLANK), Create(1, 3), Create(0, CAT_S), Create(0, CAT_S)];
      Possible(Initial(p), es) && !Descends(After(Initial(p), es))
  {
    hide Step, Possible, After, Enabled, Descends;
    var e0, e1, e2, e3 := Fork(0, q, BLANK, BLANK), Create(1, 3), Create(0, CAT_S), Create(0, CAT_S);
    var s0 := Initial(p);
    var s1 := ChildForked(p, q);
    var s2 := ChildCreates(s1);
    var s3 := ParentCreates(s2);
    var s4 := ParentAgain(s3);
    Chain(s0, e0, s1, e1, s2, e2, s3, e3, s4);
  }

  lemma ChildForked(p: nat, q: nat) returns (s: State)
    ensures |Initial(p).line| == |Initial(p).clients| && Enabled(Initial(p), Fork(0, q, BLANK, BLANK))
    ensures s == Step(Initial(p), Fork(0, q, BLANK, BLANK))
    ensures s.line == [[0], [0, 1]] && |s.clients| == 2 && s.clients[0].own == BLANK == s.clients[1].own && s.catGen == 0 && !s.halted && s.made == {}
  {
    hide Flows, Owned, UnitProts;
    OneFlows();
    s := Step(Initial(p), Fork(0, q, BLANK, BLANK));
    assert [0] + [1] == [0, 1];
  }

  lemma ChildCreates(s: State) returns (s': State)
    requires s.line == [[0], [0, 1]] && |s.clients| == 2 && s.clients[0].own == BLANK == s.clients[1].own && s.catGen == 0 && !s.halted && s.made == {}
    ensures Enabled(s, Create(1, 3)) && s' == Step(s, Create(1, 3))
    ensures s'.line == s.line && |s'.clients| == 2 && s'.clients[0].own == BLANK && s'.catGen == 1 && !s'.halted && s'.made == {(1, 3)}
  {
    s' := Step(s, Create(1, 3));
    assert FirstBlank(BLANK, 0) == 0 && Self(s, 1) == 1;
  }

  lemma ParentCreates(s: State) returns (s': State)
    requires s.line == [[0], [0, 1]] && |s.clients| == 2 && s.clients[0].own == BLANK && s.catGen == 1 && !s.halted && s.made == {(1, 3)}
    ensures Enabled(s, Create(0, CAT_S)) && s' == Step(s, Create(0, CAT_S))
    ensures s'.line == s.line && |s'.clients| == 2 && s'.clients[0].own == BLANK[0 := 2] && s'.catGen == 2 && !s'.halted && (1, 3) in s'.made
  {
    s' := Step(s, Create(0, CAT_S));
    assert FirstBlank(BLANK, 0) == 0;
  }

  lemma ParentAgain(s: State) returns (s': State)
    requires s.line == [[0], [0, 1]] && |s.clients| == 2 && s.clients[0].own == BLANK[0 := 2] && s.catGen == 2 && !s.halted && (1, 3) in s.made
    ensures Enabled(s, Create(0, CAT_S)) && s' == Step(s, Create(0, CAT_S)) && !Descends(s')
  {
    s' := Step(s, Create(0, CAT_S));
    var own := s.clients[0].own;
    assert FirstBlank(own, 1) == 1 && FirstBlank(own, 0) == 1;
    FilledOwns(own, 1, 3);
    assert (1, 3) in s'.made && 3 in Owned(s'.clients[0].own) && 1 !in s'.line[0];
  }

  /** An exhausted generator hands the same category to clients that do not descend from each other. */
  lemma ExhaustedClash(s: State, i: nat, j: nat, t: Cat, u: Cat)
    requires Inv(s) && !s.halted && i < |s.clients| && j < |s.clients| && i != j && 0x7f <= s.catGen < 0xfe
    requires FirstBlank(s.clients[i].own, 0) < 8 && FirstBlank(s.clients[j].own, 0) < 8 && Self(s, i) !in s.line[j]
    ensures var s1 := Created(s, i, t); s1.clients[j] == s.clients[j] && !s1.halted && !Descends(Created(s1, j, u))
  {
    hide FirstBlank, Traced;
    ExhaustedCat(s.catGen, t);
    var s1 := Created(s, i, t);
    assert s1.catGen == s.catGen + 1 && (Self(s, i), 0xff) in s1.made;
    ExhaustedCat(s1.catGen, u);
    var s2 := Created(s1, j, u);
    var b := FirstBlank(s.clients[j].own, 0);
    FilledOwns(s.clients[j].own, b, 0xff);
    assert 0xff in Owned(s2.clients[j].own) && Self(s, i) !in s2.line[j];
  }
}
