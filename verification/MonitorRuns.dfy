/** What every run of the monitor keeps: where ownership comes from, and what the protections allow. */
module MonitorRuns {
  import opened Options
  import opened Labels
  import opened MonitorModel

  // Where ownership comes from

  ghost predicate Traced(s: State, i: nat, k: Cat)
    requires i < |s.line|
  {
    exists a :: a in s.line[i] && (a, k) in s.made
  }

  /** What a client owns was created by it or by a client in the line of forks that led to it. */
  ghost predicate Provenance(s: State) {
    && |s.line| == |s.clients|
    && (forall i :: 0 <= i < |s.line| ==> s.line[i] != [])
    && forall i, k :: 0 <= i < |s.clients| && k in Owned(s.clients[i].own) ==> Traced(s, i, k)
  }

  ghost predicate UnitsDistinct(us: seq<MemUnit>) {
    forall i, j :: 0 <= i < j < |us| ==> us[i].addr != us[j].addr
  }

  ghost predicate Inv(s: State) {
    UnitsDistinct(s.units) && Provenance(s)
  }

  lemma InitialInv(pid: nat)
    ensures Inv(Initial(pid))
  {
    assert Owned(BLANK) == {};
  }

  lemma CreatedInv(s: State, i: nat, t: Cat)
    requires Inv(s) && i < |s.clients|
    ensures Inv(Created(s, i, t))
  {
    hide NextCat;
    var s' := Created(s, i, t);
    var c := s.clients[i];
    var k := FirstBlank(c.own, 0);
    var cat := NextCat(s.catGen, t).0;
    if k < 8 {
      if cat == 0 {
        assert c.own[k := cat] == c.own;
      } else {
        FilledOwns(c.own, k, cat);
      }
      forall j, x | 0 <= j < |s'.clients| && x in Owned(s'.clients[j].own)
        ensures Traced(s', j, x)
      {
        if x in Owned(s.clients[j].own) {
          assert Traced(s, j, x);
        } else {
          assert Self(s, i) in s'.line[j] && (Self(s, i), x) in s'.made;
        }
      }
    }
  }

  lemma ForkedInv(s: State, i: nat, pid: nat, lbl: Label, own: Label)
    requires Inv(s) && i < |s.clients|
    ensures Inv(Forked(s, i, pid, lbl, own))
  {
    hide Flows, UnitProts;
    var s' := Forked(s, i, pid, lbl, own);
    if MayFork(s.clients[i], lbl, own) {
      forall j, x | 0 <= j < |s'.clients| && x in Owned(s'.clients[j].own)
        ensures Traced(s', j, x)
      {
        var parent := if j < |s.clients| then j else i;
        assert x in Owned(s.clients[parent].own);
        assert Traced(s, parent, x);
        var a :| a in s.line[parent] && (a, x) in s.made;
        assert a in s'.line[j];
      }
    }
  }

  lemma JoinedInv(s: State, i: nat, pid: nat)
    requires Inv(s) && i < |s.clients|
    ensures Inv(Joined(s, i, pid))
  {
    hide Joined, Owned;
    var s' := Joined(s, i, pid);
    JoinedKeeps(s, i, pid);
    forall j: nat | j < |s'.clients|
      ensures s'.line[j] != [] && forall x :: x in Owned(s'.clients[j].own) ==> Traced(s', j, x)
    {
      var j' := JoinedAt(s, i, pid, j);
      assert forall x :: x in Owned(s.clients[j'].own) ==> Traced(s, j', x);
    }
  }

  lemma JoinedKeeps(s: State, i: nat, pid: nat)
    requires i < |s.clients| == |s.line|
    ensures var s' := Joined(s, i, pid); s' == s.(clients := s'.clients, line := s'.line) && |s'.clients| == |s'.line|
  {
    hide MayFork;
  }

  /** The clients that a join leaves. */
  lemma JoinedAt(s: State, i: nat, pid: nat, j: nat) returns (j': nat)
    requires i < |s.clients| == |s.line| && j < |Joined(s, i, pid).clients| == |Joined(s, i, pid).line|
    ensures j' < |s.clients| && Joined(s, i, pid).clients[j] == s.clients[j'] && Joined(s, i, pid).line[j] == s.line[j']
  {
    hide MayFork;
    j' := if Joined(s, i, pid) == s || j < PlaceOf(s.clients, pid) then j else j + 1;
  }

  /** Every step, with any pid and any type of category, keeps the invariant. */
  lemma StepInv(s: State, e: Event)
    requires Inv(s) && Enabled(s, e)
    ensures |s.line| == |s.clients| && Inv(Step(s, e))
  {
    hide Created, Forked, Joined, Flows, OtherProts, Owned;
    if s.halted {
    } else if e.Create? {
      CreatedInv(s, e.i, e.t);
    } else if e.Fork? {
      ForkedInv(s, e.i, e.pid, e.lbl, e.own);
    } else if e.Join? {
      JoinedInv(s, e.i, e.pid);
    } else {
      var s' := Step(s, e);
      forall j, x | 0 <= j < |s'.clients| && x in Owned(s'.clients[j].own)
        ensures Traced(s', j, x)
      {
        assert Traced(s, j, x);
      }
    }
  }

  /** Over every run, whatever a client owns comes down to it from a client that created it. */
  lemma {:induction false} RunInv(s: State, es: seq<Event>)
    requires Inv(s) && Possible(s, es)
    ensures Inv(After(s, es))
    decreases |es|
  {
    hide Inv, Step;
    if es != [] {
      StepInv(s, es[0]);
      RunInv(Step(s, es[0]), es[1..]);
    }
  }

  // Protections

  /**
   * The protection of `c` on `u` is within what the labels allow; if it comes from mapping the unit,
   * it is for reading and writing, and the labels allow writing.
   */
  ghost predicate PairHolds(s: State, c: Client, u: MemUnit) {
    && (c.pid, u.addr) in s.prots
    && var p := s.prots[(c.pid, u.addr)];
       if (c.pid, u.addr) in s.mapped then p.ReadWrite? && Flows(c.lbl, c.own, u.lbl)
       else Within(p, Allowed(c.lbl, c.own, u.lbl))
  }

  ghost predicate ProtsHold(s: State) {
    forall c, u :: c in s.clients && u in s.units ==> PairHolds(s, c, u)
  }

  // What the two loops set

  /** The last client in the list with this pid, or `d`. */
  ghost function Latest(cs: seq<Client>, pid: nat, d: Client): Client {
    if cs == [] then d else if cs[|cs| - 1].pid == pid then cs[|cs| - 1] else Latest(cs[..|cs| - 1], pid, d)
  }

  lemma {:induction false} OtherProtsAt(cs: seq<Client>, pid: nat, unit: MemUnit, m: map<(nat, nat), Prot>, c: Client)
    requires c in cs && c.pid != pid
    ensures (c.pid, unit.addr) in OtherProts(cs, pid, unit, m)
    ensures var l := Latest(cs, c.pid, c); OtherProts(cs, pid, unit, m)[(c.pid, unit.addr)] == Allowed(l.lbl, l.own, unit.lbl)
  {
    hide Allowed;
    if c.pid != cs[|cs| - 1].pid {
      OtherProtsAt(cs[..|cs| - 1], pid, unit, m, c);
    }
  }

  lemma {:induction false} OtherProtsElse(cs: seq<Client>, pid: nat, unit: MemUnit, m: map<(nat, nat), Prot>, x: (nat, nat))
    requires x.1 != unit.addr || x.0 == pid
    ensures x in OtherProts(cs, pid, unit, m) <==> x in m
    ensures x in m ==> OtherProts(cs, pid, unit, m)[x] == m[x]
  {
    hide Allowed;
    if cs != [] {
      OtherProtsElse(cs[..|cs| - 1], pid, unit, m, x);
    }
  }

  lemma {:induction false} UnitProtsAt(us: seq<MemUnit>, c: Client, m: map<(nat, nat), Prot>, u: MemUnit)
    requires UnitsDistinct(us) && u in us
    ensures (c.pid, u.addr) in UnitProts(us, c, m)
    ensures UnitProts(us, c, m)[(c.pid, u.addr)] == Allowed(c.lbl, c.own, u.lbl)
  {
    hide Allowed;
    if u != us[|us| - 1] {
      UnitProtsAt(us[..|us| - 1], c, m, u);
    }
  }

  lemma {:induction false} UnitProtsElse(us: seq<MemUnit>, c: Client, m: map<(nat, nat), Prot>, x: (nat, nat))
    requires x.0 != c.pid
    ensures x in UnitProts(us, c, m) <==> x in m
    ensures x in m ==> UnitProts(us, c, m)[x] == m[x]
  {
    hide Allowed;
    if us != [] {
      UnitProtsElse(us[..|us| - 1], c, m, x);
    }
  }

  // Exactly when a step gives someone too much

  /** What the new client `n` may do to each unit is within what every listed client with its pid may. */
  ghost predicate ForkFits(s: State, n: Client) {
    forall d, u :: d in s.clients && d.pid == n.pid && u in s.units ==>
      Within(Allowed(n.lbl, n.own, u.lbl), Allowed(d.lbl, d.own, u.lbl))
  }

  /** The protection that client `d` gets on a unit with `lbl`, mapped by `pid`, fits its labels. */
  ghost predicate MapFits(cs: seq<Client>, pid: nat, lbl: Label, d: Client) {
    if d.pid == pid then Flows(d.lbl, d.own, lbl)
    else
      var l := Latest(cs, d.pid, d);
      Within(Allowed(l.lbl, l.own, lbl), Allowed(d.lbl, d.own, lbl))
  }

  /** The guard: a fork with a listed pid, or a mapping while a pid is listed twice, that does not fit. */
  ghost predicate Exceeds(s: State, e: Event)
    requires Enabled(s, e)
  {
    var c := s.clients[e.i];
    && !s.halted
    && (|| (e.Fork? && MayFork(c, e.lbl, e.own) && !ForkFits(s, Client(e.pid, e.lbl, e.own)))
        || (e.Malloc? && e.addr.Some? && Flows(c.lbl, c.own, e.lbl)
            && exists d :: d in s.clients && !MapFits(s.clients, c.pid, e.lbl, d)))
  }

  lemma CreatedHolds(s: State, i: nat, t: Cat)
    requires Inv(s) && ProtsHold(s) && i < |s.clients|
    ensures ProtsHold(Created(s, i, t))
  {
    hide Allowed, Flows, Within, NextCat, Traced;
    var s' := Created(s, i, t);
    var c := s.clients[i];
    var k := FirstBlank(c.own, 0);
    var cat := NextCat(s.catGen, t).0;
    forall d, u | d in s'.clients && u in s'.units
      ensures PairHolds(s', d, u)
    {
      if d in s.clients {
        assert PairHolds(s, d, u);
      } else {
        assert d == c.(own := c.own[k := cat]) && c in s.clients && PairHolds(s, c, u);
        GrownOwn(c.own, k, cat);
        KeptByGrowth(s, s', c, d, u);
      }
    }
  }

  lemma GrownOwn(own: Label, k: nat, cat: Cat)
    requires k < 8 && own[k] == 0
    ensures Owned(own) <= Owned(own[k := cat])
  {
    if cat == 0 {
      assert own[k := cat] == own;
    } else {
      FilledOwns(own, k, cat);
    }
  }

  /** A larger ownership keeps the protections within what is allowed. */
  lemma KeptByGrowth(s: State, s': State, c: Client, c': Client, u: MemUnit)
    requires PairHolds(s, c, u) && s'.prots == s.prots && s'.mapped == s.mapped
    requires c'.pid == c.pid && c'.lbl == c.lbl && Owned(c.own) <= Owned(c'.own)
    ensures PairHolds(s', c', u)
  {
    hide Flows;
    AllowedGrows(c.lbl, c.own, c'.own, u.lbl);
  }

  /** After a fork, the protection of an old client is still right exactly if the new one's fits it. */
  lemma ForkedPair(s: State, n: Client, s': State, d: Client, u: MemUnit)
    requires UnitsDistinct(s.units) && u in s.units
    requires s'.prots == UnitProts(s.units, n, s.prots) && s'.mapped == set x | x in s.mapped && x.0 != n.pid
    ensures d.pid == n.pid ==> (PairHolds(s', d, u) <==> Within(Allowed(n.lbl, n.own, u.lbl), Allowed(d.lbl, d.own, u.lbl)))
    ensures d.pid != n.pid ==> (PairHolds(s', d, u) <==> PairHolds(s, d, u))
  {
    hide Allowed, Flows, Within;
    if d.pid == n.pid {
      UnitProtsAt(s.units, n, s.prots, u);
    } else {
      UnitProtsElse(s.units, n, s.prots, (d.pid, u.addr));
    }
  }

  lemma ForkedHoldsIff(s: State, i: nat, pid: nat, lbl: Label, own: Label)
    requires Inv(s) && ProtsHold(s) && i < |s.clients| && MayFork(s.clients[i], lbl, own)
    ensures ProtsHold(Forked(s, i, pid, lbl, own)) <==> ForkFits(s, Client(pid, lbl, own))
  {
    hide Allowed, Flows, PairHolds, Traced, UnitProts;
    var s', n := Forked(s, i, pid, lbl, own), Client(pid, lbl, own);
    forall d, u | d in s'.clients && u in s'.units
      ensures PairHolds(s', d, u) <==> d.pid != pid || Within(Allowed(lbl, own, u.lbl), Allowed(d.lbl, d.own, u.lbl))
    {
      assert d in s.clients || d == n;
      ForkedPair(s, n, s', d, u);
      if d.pid != pid {
        assert PairHolds(s, d, u);
      }
    }
  }

  /** After a mapping, the protection of a client on the new unit is right exactly if it fits. */
  lemma MallocedPair(s: State, c: Client, unit: MemUnit, s': State, d: Client, u: MemUnit)
    requires d in s.clients && forall v :: v in s.units ==> v.addr != unit.addr
    requires s'.prots == OtherProts(s.clients, c.pid, unit, s.prots[(c.pid, unit.addr) := ReadWrite])
    requires s'.mapped == (set x | x in s.mapped && x.1 != unit.addr) + {(c.pid, unit.addr)}
    ensures PairHolds(s', d, unit) <==> MapFits(s.clients, c.pid, unit.lbl, d)
    ensures u in s.units ==> (PairHolds(s', d, u) <==> PairHolds(s, d, u))
  {
    hide Allowed, Flows, Within;
    var m := s.prots[(c.pid, unit.addr) := ReadWrite];
    if d.pid == c.pid {
      OtherProtsElse(s.clients, c.pid, unit, m, (d.pid, unit.addr));
    } else {
      OtherProtsAt(s.clients, c.pid, unit, m, d);
    }
    if u in s.units {
      OtherProtsElse(s.clients, c.pid, unit, m, (d.pid, u.addr));
    }
  }

  lemma MallocedHoldsIff(s: State, i: nat, lbl: Label, addr: nat)
    requires ProtsHold(s) && i < |s.clients| && Flows(s.clients[i].lbl, s.clients[i].own, lbl)
    requires forall u :: u in s.units ==> u.addr != addr
    ensures ProtsHold(Malloced(s, i, lbl, Some(addr))) <==> forall d :: d in s.clients ==> MapFits(s.clients, s.clients[i].pid, lbl, d)
  {
    hide Allowed, Flows, PairHolds, MapFits, OtherProts;
    var s', c, unit := Malloced(s, i, lbl, Some(addr)), s.clients[i], MemUnit(addr, lbl);
    assert s'.units[0] == unit && unit in s'.units;
    forall d, u | d in s'.clients && u in s'.units
      ensures PairHolds(s', d, u) <==> u != unit || MapFits(s.clients, c.pid, lbl, d)
    {
      assert u == unit || u in s.units;
      MallocedPair(s, c, unit, s', d, u);
      if u != unit {
        assert PairHolds(s, d, u);
      }
    }
    if ProtsHold(s') {
      forall d | d in s.clients
        ensures MapFits(s.clients, c.pid, lbl, d)
      {
        assert PairHolds(s', d, unit);
      }
    }
  }

  /** One step keeps the protections within the labels exactly if its guard does not hold. */
  lemma StepHoldsIff(s: State, e: Event)
    requires Inv(s) && ProtsHold(s) && Enabled(s, e)
    ensures |s.line| == |s.clients| && (ProtsHold(Step(s, e)) <==> !Exceeds(s, e))
  {
    hide PairHolds, Flows, MapFits, ForkFits, Created, Malloced, UnitProts, Owned;
    if s.halted {
    } else if e.Create? {
      CreatedHolds(s, e.i, e.t);
    } else if e.Fork? {
      if MayFork(s.clients[e.i], e.lbl, e.own) {
        ForkedHoldsIff(s, e.i, e.pid, e.lbl, e.own);
      }
    } else if e.Malloc? {
      MallocStep(s, e.i, e.lbl, e.addr);
    } else {
      LessHolds(s, e);
    }
  }

  lemma MallocStep(s: State, i: nat, lbl: Label, addr: Option<nat>)
    requires Inv(s) && ProtsHold(s) && Enabled(s, Malloc(i, lbl, addr)) && !s.halted
    ensures ProtsHold(Malloced(s, i, lbl, addr)) <==> !Exceeds(s, Malloc(i, lbl, addr))
  {
    hide PairHolds, Flows, MapFits, OtherProts, Provenance;
    if addr.Some? && Flows(s.clients[i].lbl, s.clients[i].own, lbl) {
      MallocedHoldsIff(s, i, lbl, addr.value);
    }
  }

  /** Fewer clients or fewer units cannot break anything. */
  lemma LessHolds(s: State, e: Event)
    requires Inv(s) && ProtsHold(s) && Enabled(s, e) && (e.Join? || e.Free?)
    ensures ProtsHold(Step(s, e))
  {
    hide Allowed, Flows, Within, Owned;
    var s' := Step(s, e);
    forall d, u | d in s'.clients && u in s'.units
      ensures PairHolds(s', d, u)
    {
      assert d in s.clients && u in s.units && PairHolds(s, d, u);
    }
  }

  // Over runs

  ghost predicate AlwaysHold(s: State, es: seq<Event>)
    requires Possible(s, es)
    decreases |es|
  {
    ProtsHold(s) && (es == [] || AlwaysHold(Step(s, es[0]), es[1..]))
  }

  ghost predicate NeverExceeds(s: State, es: seq<Event>)
    requires Possible(s, es)
    decreases |es|
  {
    es == [] || (!Exceeds(s, es[0]) && NeverExceeds(Step(s, es[0]), es[1..]))
  }

  /** All protections of all states of a run are within the labels exactly if no event exceeds them. */
  lemma {:induction false} RunHoldsIff(s: State, es: seq<Event>)
    requires Inv(s) && ProtsHold(s) && Possible(s, es)
    ensures AlwaysHold(s, es) <==> NeverExceeds(s, es)
    decreases |es|
  {
    hide Inv, ProtsHold, Step, Exceeds;
    if es != [] {
      StepInv(s, es[0]);
      StepHoldsIff(s, es[0]);
      if ProtsHold(Step(s, es[0])) {
        RunHoldsIff(Step(s, es[0]), es[1..]);
      } else {
        AlwaysFirst(Step(s, es[0]), es[1..]);
      }
    }
  }

  lemma AlwaysFirst(s: State, es: seq<Event>)
    requires Possible(s, es)
    ensures AlwaysHold(s, es) ==> ProtsHold(s)
  {}

  lemma {:induction false} AlwaysLast(s: State, es: seq<Event>)
    requires Possible(s, es) && AlwaysHold(s, es)
    ensures ProtsHold(After(s, es))
    decreases |es|
  {
    hide ProtsHold, Step;
    if es != [] {
      AlwaysLast(Step(s, es[0]), es[1..]);
    }
  }

  lemma NothingYet(pid: nat)
    ensures ProtsHold(Initial(pid))
  {}

  /** A protection that a check has set never exceeds what the labels allow, at any later time. */
  lemma ChecksHold(pid: nat, es: seq<Event>, c: Client, u: MemUnit)
    requires Possible(Initial(pid), es) && NeverExceeds(Initial(pid), es)
    requires var s := After(Initial(pid), es); c in s.clients && u in s.units
    ensures var s := After(Initial(pid), es);
      && (c.pid, u.addr) in s.prots
      && ((c.pid, u.addr) !in s.mapped ==> Within(s.prots[(c.pid, u.addr)], Allowed(c.lbl, c.own, u.lbl)))
      && (s.prots[(c.pid, u.addr)].ReadWrite? ==> Flows(c.lbl, c.own, u.lbl))
  {
    hide Flows, Inv, Possible, After, AlwaysHold, NeverExceeds;
    RunHolds(pid, es);
    assert PairHolds(After(Initial(pid), es), c, u);
  }

  lemma RunHolds(pid: nat, es: seq<Event>)
    requires Possible(Initial(pid), es) && NeverExceeds(Initial(pid), es)
    ensures ProtsHold(After(Initial(pid), es))
  {
    hide Inv, Possible, After, AlwaysHold, NeverExceeds, ProtsHold;
    InitialInv(pid);
    NothingYet(pid);
    RunHoldsIff(Initial(pid), es);
    AlwaysLast(Initial(pid), es);
  }

  /** The protection that mapping a unit gives is within what the labels allow iff reading is allowed. */
  lemma MappedWithinIff(pid: nat, es: seq<Event>, c: Client, u: MemUnit)
    requires Possible(Initial(pid), es) && NeverExceeds(Initial(pid), es)
    requires var s := After(Initial(pid), es); c in s.clients && u in s.units && (c.pid, u.addr) in s.mapped
    ensures var s := After(Initial(pid), es);
      && (c.pid, u.addr) in s.prots
      && (Within(s.prots[(c.pid, u.addr)], Allowed(c.lbl, c.own, u.lbl)) <==> Flows(u.lbl, c.own, c.lbl))
  {
    hide Flows, Inv, Possible, After, AlwaysHold, NeverExceeds;
    RunHolds(pid, es);
    assert PairHolds(After(Initial(pid), es), c, u);
  }

  // Runs in which every fork reports a pid that no listed client has

  ghost predicate PidsDistinct(cs: seq<Client>) {
    forall i, j :: 0 <= i < j < |cs| ==> cs[i].pid != cs[j].pid
  }

  ghost predicate NewPid(s: State, e: Event) {
    e.Fork? ==> forall c :: c in s.clients ==> c.pid != e.pid
  }

  ghost predicate NewPids(s: State, es: seq<Event>)
    requires Possible(s, es)
    decreases |es|
  {
    es == [] || (NewPid(s, es[0]) && NewPids(Step(s, es[0]), es[1..]))
  }

  lemma {:induction false} LatestIsOnly(cs: seq<Client>, c: Client, d: Client)
    requires PidsDistinct(cs) && c in cs
    ensures Latest(cs, c.pid, d) == c
  {
    if c != cs[|cs| - 1] {
      LatestIsOnly(cs[..|cs| - 1], c, d);
    }
  }

  lemma NewPidFits(s: State, e: Event)
    requires |s.line| == |s.clients| && PidsDistinct(s.clients) && Enabled(s, e) && NewPid(s, e)
    ensures !Exceeds(s, e) && PidsDistinct(Step(s, e).clients)
  {
    hide Allowed, Flows, OtherProts, UnitProts, Owned, NextCat, FirstBlank;
    forall d | d in s.clients
      ensures Latest(s.clients, d.pid, d) == d
    {
      LatestIsOnly(s.clients, d, d);
    }
  }

  lemma {:induction false} NewPidsNeverExceed(s: State, es: seq<Event>)
    requires Possible(s, es) && PidsDistinct(s.clients) && NewPids(s, es)
    ensures NeverExceeds(s, es)
    decreases |es|
  {
    hide PidsDistinct, NewPid, Step, Exceeds;
    if es != [] {
      NewPidFits(s, es[0]);
      NewPidsNeverExceed(Step(s, es[0]), es[1..]);
    }
  }

  // Two runs that exceed the labels

  const ONE: Label := [1, 0, 0, 0, 0, 0, 0, 0]

  lemma OneFlows()
    ensures Owned(BLANK) == {} && Owned(ONE) == {1}
    ensures Flows(BLANK, BLANK, BLANK) && Flows(BLANK, ONE, BLANK) && Flows(BLANK, BLANK, ONE) && Flows(BLANK, ONE, ONE)
    ensures Flows(ONE, ONE, BLANK) && !Flows(ONE, BLANK, BLANK)
  {
    assert forall c :: c in BLANK ==> c == 0;
    assert ONE[0] == 1 && forall c :: c in ONE ==> c == 0 || c == 1;
    assert ONE[0] in Secrets(ONE) && ONE[0] !in Secrets(BLANK);
  }

  ghost predicate AllWithin(s: State) {
    forall c, u :: c in s.clients && u in s.units && (c.pid, u.addr) in s.prots ==>
      Within(s.prots[(c.pid, u.addr)], Allowed(c.lbl, c.own, u.lbl))
  }

  /** The first client maps a unit with a secrecy category that it does not have. */
  lemma MappingNeedNotBeWithin(pid: nat, addr: nat)
    ensures exists es :: Possible(Initial(pid), es) && !AllWithin(After(Initial(pid), es))
  {
    hide Flows;
    OneFlows();
    var c, u, e := Client(pid, BLANK, BLANK), MemUnit(addr, ONE), Malloc(0, ONE, Some(addr));
    var s0 := Initial(pid);
    var s := Step(s0, e);
    assert c == s0.clients[0];
    OtherProtsElse(s0.clients, pid, u, s0.prots[(pid, addr) := ReadWrite], (pid, addr));
    assert s.units[0] == u && s.clients == s0.clients;
    assert [e][1..] == [] && Possible(s, []) && After(s, []) == s;
    assert Possible(s0, [e]) && After(s0, [e]) == s;
  }

  /** A fork that reports the pid of a listed client hands that client what it may not have. */
  lemma ReusedPidExceeds(p: nat, q: nat, addr: nat)
    requires p != q
    ensures var es := [Create(0, CAT_S), Fork(0, q, BLANK, BLANK), Malloc(0, ONE, Some(addr)), Fork(0, q, BLANK, ONE)];
      Possible(Initial(p), es) && !ProtsHold(After(Initial(p), es))
  {
    hide Flows, Allowed, Within, PairHolds, ProtsHold, Step, Possible, After, Enabled, Inv, Exceeds;
    var e0, e1, e2, e3 := Create(0, CAT_S), Fork(0, q, BLANK, BLANK), Malloc(0, ONE, Some(addr)), Fork(0, q, BLANK, ONE);
    var s0 := Initial(p);
    var s1 := OwnsOne(p);
    var s2 := ForksPlain(p, q, s1);
    var s3 := MapsOne(p, q, addr, s2);
    ForksAgain(p, q, addr, s3);
    var s4 := Step(s3, e3);
    InitialInv(p);
    NothingYet(p);
    Stays(s0, e0);
    Stays(s1, e1);
    Stays(s2, e2);
    StepHoldsIff(s3, e3);
    Chain(s0, e0, s1, e1, s2, e2, s3, e3, s4);
  }

  lemma Stays(s: State, e: Event)
    requires Inv(s) && ProtsHold(s) && Enabled(s, e) && PidsDistinct(s.clients) && NewPid(s, e)
    ensures |s.line| == |s.clients| && Inv(Step(s, e)) && ProtsHold(Step(s, e)) && PidsDistinct(Step(s, e).clients)
  {
    hide ProtsHold, PidsDistinct, NewPid, Step, Enabled, Exceeds;
    StepInv(s, e);
    StepHoldsIff(s, e);
    NewPidFits(s, e);
  }

  lemma OwnsOne(p: nat) returns (s: State)
    ensures |Initial(p).line| == |Initial(p).clients| && Enabled(Initial(p), Create(0, CAT_S)) && s == Step(Initial(p), Create(0, CAT_S))
    ensures s.clients == [Client(p, BLANK, ONE)] && s.units == [] && !s.halted && |s.line| == 1
    ensures PidsDistinct(Initial(p).clients) && NewPid(Initial(p), Create(0, CAT_S)) && PidsDistinct(s.clients)
  {
    s := Step(Initial(p), Create(0, CAT_S));
    assert FirstBlank(BLANK, 0) == 0 && BLANK[0 := 1] == ONE;
  }

  lemma ForksPlain(p: nat, q: nat, s: State) returns (s': State)
    requires p != q && s.clients == [Client(p, BLANK, ONE)] && s.units == [] && !s.halted && |s.line| == 1
    ensures Enabled(s, Fork(0, q, BLANK, BLANK)) && NewPid(s, Fork(0, q, BLANK, BLANK)) && s' == Step(s, Fork(0, q, BLANK, BLANK))
    ensures s'.clients == [Client(p, BLANK, ONE), Client(q, BLANK, BLANK)] && s'.units == [] && !s'.halted && |s'.line| == 2
    ensures PidsDistinct(s'.clients)
  {
    hide Flows, Owned, UnitProts;
    OneFlows();
    s' := Step(s, Fork(0, q, BLANK, BLANK));
  }

  lemma MapsOne(p: nat, q: nat, addr: nat, s: State) returns (s': State)
    requires p != q && s.clients == [Client(p, BLANK, ONE), Client(q, BLANK, BLANK)] && s.units == [] && !s.halted && |s.line| == 2
    ensures Enabled(s, Malloc(0, ONE, Some(addr))) && NewPid(s, Malloc(0, ONE, Some(addr))) && s' == Step(s, Malloc(0, ONE, Some(addr)))
    ensures s'.clients == s.clients && s'.units == [MemUnit(addr, ONE)] && !s'.halted && |s'.line| == 2
  {
    hide Flows, Owned, OtherProts;
    OneFlows();
    s' := Step(s, Malloc(0, ONE, Some(addr)));
  }

  lemma ForksAgain(p: nat, q: nat, addr: nat, s: State)
    requires s.clients == [Client(p, BLANK, ONE), Client(q, BLANK, BLANK)] && s.units == [MemUnit(addr, ONE)] && !s.halted && |s.line| == 2
    ensures Enabled(s, Fork(0, q, BLANK, ONE)) && Exceeds(s, Fork(0, q, BLANK, ONE))
  {
    hide Flows, Owned;
    OneFlows();
    var d, u := s.clients[1], s.units[0];
    assert d in s.clients && u in s.units && d.pid == q;
    assert Allowed(BLANK, ONE, ONE) == ReadWrite && Allowed(BLANK, BLANK, ONE) == NoAccess;
    assert !Within(Allowed(BLANK, ONE, u.lbl), Allowed(d.lbl, d.own, u.lbl));
  }

  lemma Chain(s0: State, e0: Event, s1: State, e1: Event, s2: State, e2: Event, s3: State, e3: Event, s4: State)
    requires |s0.line| == |s0.clients| && Enabled(s0, e0) && s1 == Step(s0, e0)
    requires |s1.line| == |s1.clients| && Enabled(s1, e1) && s2 == Step(s1, e1)
    requires |s2.line| == |s2.clients| && Enabled(s2, e2) && s3 == Step(s2, e2)
    requires |s3.line| == |s3.clients| && Enabled(s3, e3) && s4 == Step(s3, e3)
    ensures Possible(s0, [e0, e1, e2, e3]) && After(s0, [e0, e1, e2, e3]) == s4
  {
    hide Step, Enabled;
    assert [e0, e1, e2, e3][1..] == [e1, e2, e3] && [e1, e2, e3][1..] == [e2, e3] && [e2, e3][1..] == [e3] && [e3][1..] == [];
    assert Possible(s4, []) && After(s4, []) == s4;
    assert Possible(s3, [e3]) && After(s3, [e3]) == s4;
    assert Possible(s2, [e2, e3]) && After(s2, [e2, e3]) == s4;
    assert Possible(s1, [e1, e2, e3]) && After(s1, [e1, e2, e3]) == s4;
  }
}
