/** The monitor: its state, its handlers, and that each of them takes the step of the model. */
module Monitor {
  import opened Options
  import opened Labels
  import opened MonitorModel
  import opened MonitorRuns

  ghost predicate ProtIs(m: map<(nat, nat), Prot>, pid: nat, u: MemUnit, p: Prot) {
    (pid, u.addr) in m && m[(pid, u.addr)] == p
  }

  ghost predicate SameProt(m: map<(nat, nat), Prot>, m': map<(nat, nat), Prot>, x: (nat, nat)) {
    if x in m then x in m' && m'[x] == m[x] else x !in m'
  }

  /** Client `j` is the first with this pid. */
  ghost predicate First(cs: seq<Client>, j: nat, pid: nat)
    requires j < |cs|
  {
    cs[j].pid == pid && forall k :: 0 <= k < j ==> cs[k].pid != pid
  }

  /** No later client has the pid of client `k`. */
  ghost predicate LastOf(cs: seq<Client>, k: nat)
    requires k < |cs|
  {
    forall j :: k < j < |cs| ==> cs[j].pid != cs[k].pid
  }

  /** A category more, if there is a blank slot for it and it is not blank itself. */
  lemma Granted(own: Label, cat: Cat)
    ensures var k := FirstBlank(own, 0);
      && (k == 8 <==> 0 !in own)
      && (k < 8 ==> Owned(own[k := cat]) == Owned(own) + if cat == 0 then {} else {cat})
  {
    var k := FirstBlank(own, 0);
    assert own[0..8] == own;
    if k < 8 {
      if cat == 0 {
        assert own[k := cat] == own;
      } else {
        FilledOwns(own, k, cat);
      }
    }
  }

  lemma Apart(s: State)
    requires Inv(s)
    ensures UnitsDistinct(s.units)
  {}

  lemma ForkProts(us: seq<MemUnit>, c: Client, m: map<(nat, nat), Prot>)
    requires UnitsDistinct(us)
    ensures forall u :: u in us ==> ProtIs(UnitProts(us, c, m), c.pid, u, Allowed(c.lbl, c.own, u.lbl))
    ensures forall x: (nat, nat) :: x.0 != c.pid ==> SameProt(m, UnitProts(us, c, m), x)
  {
    hide UnitProts, Allowed;
    forall u | u in us
      ensures ProtIs(UnitProts(us, c, m), c.pid, u, Allowed(c.lbl, c.own, u.lbl))
    {
      UnitProtsAt(us, c, m, u);
    }
    forall x: (nat, nat) | x.0 != c.pid
      ensures SameProt(m, UnitProts(us, c, m), x)
    {
      UnitProtsElse(us, c, m, x);
    }
  }

  lemma {:induction false} LatestIs(cs: seq<Client>, k: nat, d: Client)
    requires k < |cs| && LastOf(cs, k)
    ensures Latest(cs, cs[k].pid, d) == cs[k]
  {
    if k < |cs| - 1 {
      LatestIs(cs[..|cs| - 1], k, d);
    }
  }

  lemma MallocProts(cs: seq<Client>, pid: nat, u: MemUnit, m: map<(nat, nat), Prot>)
    ensures var m' := OtherProts(cs, pid, u, m[(pid, u.addr) := ReadWrite]);
      && ProtIs(m', pid, u, ReadWrite)
      && (forall k :: 0 <= k < |cs| && cs[k].pid != pid && LastOf(cs, k) ==> ProtIs(m', cs[k].pid, u, Allowed(cs[k].lbl, cs[k].own, u.lbl)))
      && (forall x: (nat, nat) :: x.1 != u.addr ==> SameProt(m, m', x))
  {
    hide OtherProts, Allowed;
    var m0 := m[(pid, u.addr) := ReadWrite];
    OtherProtsElse(cs, pid, u, m0, (pid, u.addr));
    forall k | 0 <= k < |cs| && cs[k].pid != pid && LastOf(cs, k)
      ensures ProtIs(OtherProts(cs, pid, u, m0), cs[k].pid, u, Allowed(cs[k].lbl, cs[k].own, u.lbl))
    {
      OtherProtsAt(cs, pid, u, m0, cs[k]);
      LatestIs(cs, k, cs[k]);
    }
    forall x: (nat, nat) | x.1 != u.addr
      ensures SameProt(m, OtherProts(cs, pid, u, m0), x)
    {
      OtherProtsElse(cs, pid, u, m0, x);
    }
  }

  class Arbiter {
    var clients: seq<Client>
    var units: seq<MemUnit>
    var prots: map<(nat, nat), Prot>
    var catGen: bv8
    /** An assertion has failed. */
    var halted: bool

    ghost var mapped: set<(nat, nat)>
    ghost var line: seq<seq<nat>>
    ghost var next: nat
    ghost var made: set<(nat, Cat)>

    ghost function Now(): State
      reads this
    {
      State(clients, units, prots, catGen, halted, mapped, line, next, made)
    }

    /** init_arbiter_thread and init_first_child */
    constructor (pid: nat)
      ensures Now() == Initial(pid) && Inv(Now())
    {
      clients, units, prots := [Client(pid, BLANK, BLANK)], [], map[];
      catGen, halted := 0, false;
      mapped, line, next, made := {}, [[0]], 1, {};
      new;
      InitialInv(pid);
    }

    /** create_cat */
    method CreateCat(t: Cat) returns (cat: Cat)
      modifies `catGen
      ensures (cat, catGen) == NextCat(old(catGen), t)
    {
      catGen := catGen + 1;
      if catGen >= 0x80 {
        return 0xff;
      }
      return t | (catGen & 0x7f);
    }

    /** handle_create_cat_rpc; no answer comes when the ownership is full. */
    method HandleCreateCat(i: nat, t: Cat) returns (reply: Option<Cat>)
      requires Inv(Now()) && Enabled(Now(), Create(i, t)) && !halted
      modifies this
      ensures Inv(Now()) && Now() == Step(old(Now()), Create(i, t))
      ensures reply == if halted then None else Some(NextCat(old(catGen), t).0)
      ensures halted <==> 0 !in old(clients)[i].own || NextCat(old(catGen), t).0 == 0
      ensures units == old(units) && prots == old(prots) && clients == old(clients)[i := old(clients)[i].(own := clients[i].own)]
      ensures Owned(clients[i].own) == Owned(old(clients)[i].own) + if reply.Some? then {reply.value} else {}
    {
      hide Inv, NextCat;
      Granted(clients[i].own, NextCat(catGen, t).0);
      StepInv(Now(), Create(i, t));
      ghost var self := Self(Now(), i);
      var c := clients[i];
      var cat := CreateCat(t);
      var own, r := AddOwnership(c.own, cat);
      clients := clients[i := c.(own := own)];
      assert own == c.own ==> c.(own := own) == c && clients == old(clients);
      if r == 0 {
        halted := true;
        return None;
      }
      made := made + {(self, cat)};
      return Some(cat);
    }

    /** malloc_update: the new client's protection on every unit. */
    method MallocUpdate(c: Client)
      modifies `prots
      ensures prots == UnitProts(units, c, old(prots))
    {
      hide Allowed;
      var k := 0;
      while k < |units|
        invariant k <= |units| && prots == UnitProts(units[..k], c, old(prots))
        modifies `prots
      {
        var p := CheckMemProt(c.lbl, c.own, units[k].lbl);
        prots := prots[(c.pid, units[k].addr) := p];
        assert units[..k + 1][..k] == units[..k];
        k := k + 1;
      }
      assert units[..k] == units;
    }

    /** handle_fork_rpc */
    method HandleFork(i: nat, pid: nat, lbl: Label, own: Label) returns (reply: int)
      requires Inv(Now()) && Enabled(Now(), Fork(i, pid, lbl, own)) && !halted
      modifies this
      ensures Inv(Now()) && Now() == Step(old(Now()), Fork(i, pid, lbl, own))
      ensures reply == if MayFork(old(clients)[i], lbl, own) then 0 else -1
      ensures reply == -1 ==> Now() == old(Now())
      ensures reply == 0 ==> clients == old(clients) + [Client(pid, lbl, own)] && units == old(units) && catGen == old(catGen)
      ensures reply == 0 ==> forall u :: u in units ==> ProtIs(prots, pid, u, Allowed(lbl, own, u.lbl))
      ensures forall x: (nat, nat) :: x.0 != pid ==> SameProt(old(prots), prots, x)
    {
      hide Inv, Flows, UnitProts;
      Apart(Now());
      ForkProts(units, Client(pid, lbl, own), prots);
      StepInv(Now(), Fork(i, pid, lbl, own));
      var c := clients[i];
      var r := CheckLabel(c.lbl, c.own, lbl, Some(own));
      if r != 0 {
        return -1;
      }
      var child := Client(pid, lbl, own);
      clients := clients + [child];
      MallocUpdate(child);
      mapped := set x | x in mapped && x.0 != pid;
      line, next := line + [line[i] + [next]], next + 1;
      return 0;
    }

    /** arbiter_lookup_client_pid */
    method LookupPid(pid: nat) returns (j: nat)
      ensures j == PlaceOf(clients, pid)
    {
      j := 0;
      while j < |clients|
        invariant j <= |clients| && forall k :: 0 <= k < j ==> clients[k].pid != pid
      {
        if clients[j].pid == pid {
          return;
        }
        j := j + 1;
      }
    }

    /** handle_pthread_join_rpc */
    method HandleJoin(i: nat, pid: nat) returns (reply: int)
      requires Inv(Now()) && Enabled(Now(), Join(i, pid)) && !halted
      modifies this
      ensures Inv(Now()) && Now() == Step(old(Now()), Join(i, pid))
      ensures reply == 0 <==> |clients| < |old(clients)|
      ensures reply == 0 <==> exists j: nat ::
        j < |old(clients)| && First(old(clients), j, pid) && MayFork(old(clients)[i], old(clients)[j].lbl, old(clients)[j].own)
      ensures forall j: nat :: reply == 0 && j < |old(clients)| && First(old(clients), j, pid) ==>
        clients == old(clients)[..j] + old(clients)[j + 1..]
      ensures reply != 0 ==> Now() == old(Now())
      ensures units == old(units) && prots == old(prots) && catGen == old(catGen)
    {
      hide Inv, Flows, Owned;
      StepInv(Now(), Join(i, pid));
      var c := clients[i];
      var j := LookupPid(pid);
      if j == |clients| {
        return -1;
      }
      var r := CheckLabel(c.lbl, c.own, clients[j].lbl, Some(clients[j].own));
      if r != 0 {
        return -1;
      }
      clients := clients[..j] + clients[j + 1..];
      line := line[..j] + line[j + 1..];
      return 0;
    }

    /** prot_update: the protections of the other clients on a unit. */
    method ProtUpdate(pid: nat, u: MemUnit)
      modifies `prots
      ensures prots == OtherProts(clients, pid, u, old(prots))
    {
      hide Allowed;
      var k := 0;
      while k < |clients|
        invariant k <= |clients| && prots == OtherProts(clients[..k], pid, u, old(prots))
        modifies `prots
      {
        var c := clients[k];
        assert clients[..k + 1][..k] == clients[..k];
        if c.pid != pid {
          var p := CheckMemProt(c.lbl, c.own, u.lbl);
          prots := prots[(c.pid, u.addr) := p];
        }
        k := k + 1;
      }
      assert clients[..k] == clients;
    }

    /** handle_malloc_rpc; `addr` is where the allocator puts a new unit, if it needs one. */
    method HandleMalloc(i: nat, lbl: Label, addr: Option<nat>) returns (ok: bool)
      requires Inv(Now()) && Enabled(Now(), Malloc(i, lbl, addr)) && !halted
      modifies this
      ensures Inv(Now()) && Now() == Step(old(Now()), Malloc(i, lbl, addr))
      ensures ok <==> Flows(clients[i].lbl, clients[i].own, lbl)
      ensures clients == old(clients) && catGen == old(catGen)
      ensures !ok || addr.None? ==> Now() == old(Now())
      ensures ok && addr.Some? ==>
        var u := MemUnit(addr.value, lbl); var me := clients[i].pid;
        && units == [u] + old(units) && ProtIs(prots, me, u, ReadWrite)
        && forall k :: 0 <= k < |clients| && clients[k].pid != me && LastOf(clients, k) ==>
             ProtIs(prots, clients[k].pid, u, Allowed(clients[k].lbl, clients[k].own, lbl))
      ensures forall x: (nat, nat) :: Some(x.1) != addr ==> SameProt(old(prots), prots, x)
    {
      hide Inv, Flows, OtherProts, Allowed;
      if addr.Some? { MallocProts(clients, clients[i].pid, MemUnit(addr.value, lbl), prots); }
      StepInv(Now(), Malloc(i, lbl, addr));
      var c := clients[i];
      var r := CheckLabel(c.lbl, c.own, lbl, None);
      if r != 0 {
        return false;
      }
      if addr.Some? {
        var u := MemUnit(addr.value, lbl);
        prots := prots[(c.pid, u.addr) := ReadWrite];
        units := [u] + units;
        ProtUpdate(c.pid, u);
        mapped := (set x | x in mapped && x.1 != u.addr) + {(c.pid, u.addr)};
      }
      return true;
    }

    /** handle_free_rpc for a unit that was mapped on its own. */
    method HandleFree(i: nat, u: nat) returns (ok: bool)
      requires Inv(Now()) && Enabled(Now(), Free(i, u)) && !halted
      modifies this
      ensures Inv(Now()) && Now() == Step(old(Now()), Free(i, u))
      ensures ok <==> Flows(clients[i].lbl, clients[i].own, old(units)[u].lbl)
      ensures clients == old(clients) && prots == old(prots) && catGen == old(catGen)
      ensures units == if ok then old(units)[..u] + old(units)[u + 1..] else old(units)
    {
      hide Inv, Flows;
      StepInv(Now(), Free(i, u));
      var c := clients[i];
      var r := CheckLabel(c.lbl, c.own, units[u].lbl, None);
      if r != 0 {
        return false;
      }
      units := units[..u] + units[u + 1..];
      return true;
    }
  }
}
