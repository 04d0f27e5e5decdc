/**
 * The monitor's steps on values, and what every run of them keeps.
 *
 * The last four components of a state are only for stating properties: which protections come from
 * mapping a unit and not from a check, the line of forks that led to each client, the next number
 * for a client, and who created which category.
 */
module MonitorModel {
  import opened Options
  import opened Labels

  /** struct client_desc */
  datatype Client = Client(pid: nat, lbl: Label, own: Label)

  /** A unit of the shared heap, named by its address. */
  datatype MemUnit = MemUnit(addr: nat, lbl: Label)

  datatype State = State(
    clients: seq<Client>, units: seq<MemUnit>, prots: map<(nat, nat), Prot>, catGen: bv8, halted: bool,
    mapped: set<(nat, nat)>, line: seq<seq<nat>>, next: nat, made: set<(nat, Cat)>)

  /** The first client: a blank label and no ownership. */
  ghost function Initial(pid: nat): State {
    State([Client(pid, BLANK, BLANK)], [], map[], 0, false, {}, [[0]], 1, {})
  }

  /** One call to the monitor by client `i`, with what the system answers. */
  datatype Event =
    | Create(i: nat, t: Cat)
    | Fork(i: nat, pid: nat, lbl: Label, own: Label)
    | Join(i: nat, pid: nat)
    | Malloc(i: nat, lbl: Label, addr: Option<nat>)
    | Free(i: nat, u: nat)

  ghost predicate Enabled(s: State, e: Event) {
    && e.i < |s.clients|
    && (e.Malloc? && e.addr.Some? ==> forall u :: u in s.units ==> u.addr != e.addr.value)
    && (e.Free? ==> e.u < |s.units|)
  }

  /** The number of client `i`: the last in its line. */
  ghost function Self(s: State, i: nat): nat
    requires i < |s.line|
  {
    if s.line[i] == [] then 0 else s.line[i][|s.line[i]| - 1]
  }

  // What the loops over clients and over units set

  ghost function OtherProts(cs: seq<Client>, pid: nat, unit: MemUnit, m: map<(nat, nat), Prot>): map<(nat, nat), Prot> {
    if cs == [] then m
    else
      var c := cs[|cs| - 1];
      var before := OtherProts(cs[..|cs| - 1], pid, unit, m);
      if c.pid == pid then before else before[(c.pid, unit.addr) := Allowed(c.lbl, c.own, unit.lbl)]
  }

  ghost function UnitProts(us: seq<MemUnit>, c: Client, m: map<(nat, nat), Prot>): map<(nat, nat), Prot> {
    if us == [] then m
    else
      var u := us[|us| - 1];
      UnitProts(us[..|us| - 1], c, m)[(c.pid, u.addr) := Allowed(c.lbl, c.own, u.lbl)]
  }

  /** The place of the client with this pid, or the length. */
  ghost function PlaceOf(cs: seq<Client>, pid: nat): (r: nat)
    ensures r <= |cs| && (r < |cs| ==> cs[r].pid == pid) && forall k :: 0 <= k < r ==> cs[k].pid != pid
  {
    if cs == [] || cs[0].pid == pid then 0 else 1 + PlaceOf(cs[1..], pid)
  }

  // The steps

  ghost function Created(s: State, i: nat, t: Cat): State
    requires i < |s.clients| == |s.line|
  {
    var (cat, gen) := NextCat(s.catGen, t);
    var c := s.clients[i];
    var k := FirstBlank(c.own, 0);
    if k == 8 then s.(catGen := gen, halted := true)
    else
      s.(catGen := gen, halted := cat == 0, clients := s.clients[i := c.(own := c.own[k := cat])],
         made := if cat == 0 then s.made else s.made + {(Self(s, i), cat)})
  }

  ghost predicate MayFork(c: Client, lbl: Label, own: Label) {
    Flows(c.lbl, c.own, lbl) && Owned(own) <= Owned(c.own)
  }

  ghost function Forked(s: State, i: nat, pid: nat, lbl: Label, own: Label): State
    requires i < |s.clients| == |s.line|
  {
    if !MayFork(s.clients[i], lbl, own) then s
    else
      var c := Client(pid, lbl, own);
      s.(clients := s.clients + [c], prots := UnitProts(s.units, c, s.prots),
         mapped := (set x | x in s.mapped && x.0 != pid), line := s.line + [s.line[i] + [s.next]], next := s.next + 1)
  }

  ghost function Joined(s: State, i: nat, pid: nat): State
    requires i < |s.clients| == |s.line|
  {
    var j := PlaceOf(s.clients, pid);
    if j == |s.clients| || !MayFork(s.clients[i], s.clients[j].lbl, s.clients[j].own) then s
    else s.(clients := s.clients[..j] + s.clients[j + 1..], line := s.line[..j] + s.line[j + 1..])
  }

  ghost function Malloced(s: State, i: nat, lbl: Label, addr: Option<nat>): State
    requires i < |s.clients|
  {
    var c := s.clients[i];
    if !Flows(c.lbl, c.own, lbl) || addr.None? then s
    else
      var u := MemUnit(addr.value, lbl);
      s.(units := [u] + s.units, prots := OtherProts(s.clients, c.pid, u, s.prots[(c.pid, u.addr) := ReadWrite]),
         mapped := (set x | x in s.mapped && x.1 != u.addr) + {(c.pid, u.addr)})
  }

  ghost function Freed(s: State, i: nat, u: nat): State
    requires i < |s.clients| && u < |s.units|
  {
    var c := s.clients[i];
    if !Flows(c.lbl, c.own, s.units[u].lbl) then s
    else s.(units := s.units[..u] + s.units[u + 1..])
  }

  /** One call; a halted monitor answers none. */
  ghost function Step(s: State, e: Event): State
    requires |s.line| == |s.clients| && Enabled(s, e)
  {
    if s.halted then s
    else match e
      case Create(i, t) => Created(s, i, t)
      case Fork(i, pid, lbl, own) => Forked(s, i, pid, lbl, own)
      case Join(i, pid) => Joined(s, i, pid)
      case Malloc(i, lbl, addr) => Malloced(s, i, lbl, addr)
      case Free(i, u) => Freed(s, i, u)
  }

  // Whole runs

  ghost predicate Possible(s: State, es: seq<Event>)
    decreases |es|
  {
    es == [] || (|s.line| == |s.clients| && Enabled(s, es[0]) && Possible(Step(s, es[0]), es[1..]))
  }

  ghost function After(s: State, es: seq<Event>): State
    requires Possible(s, es)
    decreases |es|
  {
    if es == [] then s else After(Step(s, es[0]), es[1..])
  }
}
