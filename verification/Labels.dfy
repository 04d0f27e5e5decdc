/** Labels and ownerships of the monitor, and the checks that compare them. */
module Labels {
  import opened Options

  /** A category: the top bit tells integrity from secrecy, and 0 is a blank slot. */
  type Cat = bv8

  /** label_t and own_t: eight slots, some of them blank. */
  type Label = l: seq<Cat> | |l| == 8 witness [0, 0, 0, 0, 0, 0, 0, 0]

  const BLANK: Label := [0, 0, 0, 0, 0, 0, 0, 0]
  const CAT_S: Cat := 0x00
  const CAT_I: Cat := 0x80

  datatype Prot = NoAccess | ReadOnly | ReadWrite

  function CatType(c: Cat): Cat { c & 0x80 }

  // What the slots mean

  ghost predicate Secret(c: Cat) { c != 0 && CatType(c) != CAT_I }

  ghost predicate Trust(c: Cat) { c != 0 && CatType(c) != CAT_S }

  ghost function Secrets(l: Label): set<Cat> { set c | c in l && Secret(c) }

  ghost function Trusts(l: Label): set<Cat> { set c | c in l && Trust(c) }

  ghost function Owned(o: Label): set<Cat> { set c | c in o && c != 0 }

  /** Information may flow from `l1` to `l2` by a thread that owns `o1`. */
  ghost predicate Flows(l1: Label, o1: Label, l2: Label) {
    Secrets(l1) - Owned(o1) <= Secrets(l2) && Trusts(l2) - Owned(o1) <= Trusts(l1)
  }

  /** What a thread with `l1` and `o1` may do to memory with `l2`. */
  ghost function Allowed(l1: Label, o1: Label, l2: Label): Prot {
    if !Flows(l2, o1, l1) then NoAccess else if Flows(l1, o1, l2) then ReadWrite else ReadOnly
  }

  ghost predicate Within(p: Prot, q: Prot) {
    p.NoAccess? || p == q || q.ReadWrite?
  }

  // For one ownership, flowing is a preorder; more ownership only allows more

  lemma FlowsReflexive(l: Label, o: Label)
    ensures Flows(l, o, l)
  {}

  lemma FlowsTransitive(l1: Label, l2: Label, l3: Label, o: Label)
    requires Flows(l1, o, l2) && Flows(l2, o, l3)
    ensures Flows(l1, o, l3)
  {}

  lemma AllowedGrows(l1: Label, o1: Label, o2: Label, l2: Label)
    requires Owned(o1) <= Owned(o2)
    ensures Flows(l1, o1, l2) ==> Flows(l1, o2, l2)
    ensures Within(Allowed(l1, o1, l2), Allowed(l1, o2, l2))
  {}

  // The loops of check_label

  /** Whether `c` is in one of the slots. */
  method Holds(c: Cat, l: Label) returns (found: bool)
    ensures found <==> c in l
  {
    var j := 0;
    while j < 8
      invariant j <= 8 && c !in l[..j]
    {
      if c == l[j] {
        return true;
      }
      j := j + 1;
    }
    return false;
  }

  /** check_label; `o2` is left out when data is created. */
  method CheckLabel(l1: Label, o1: Label, l2: Label, o2: Option<Label>) returns (r: int)
    ensures r == 0 || r == -1
    ensures r == 0 <==> Flows(l1, o1, l2) && (o2.Some? ==> Owned(o2.value) <= Owned(o1))
  {
    var i := 0;
    while i < 8
      invariant i <= 8
      invariant forall k :: 0 <= k < i && Secret(l1[k]) ==> l1[k] in o1 || l1[k] in l2
    {
      if l1[i] != 0 && CatType(l1[i]) != CAT_I {
        var owned := Holds(l1[i], o1);
        if !owned {
          var kept := Holds(l1[i], l2);
          if !kept {
            assert l1[i] in Secrets(l1) - Owned(o1) && l1[i] !in Secrets(l2);
            return -1;
          }
        }
      }
      i := i + 1;
    }
    i := 0;
    while i < 8
      invariant i <= 8
      invariant forall k :: 0 <= k < i && Trust(l2[k]) ==> l2[k] in o1 || l2[k] in l1
    {
      if l2[i] != 0 && CatType(l2[i]) != CAT_S {
        var owned := Holds(l2[i], o1);
        if !owned {
          var kept := Holds(l2[i], l1);
          if !kept {
            assert l2[i] in Trusts(l2) - Owned(o1) && l2[i] !in Trusts(l1);
            return -1;
          }
        }
      }
      i := i + 1;
    }
    assert Flows(l1, o1, l2);
    if o2.Some? {
      r := CheckOwned(o1, o2.value);
    } else {
      r := 0;
    }
  }

  /** The last part of check_label: the second ownership comes from the first. */
  method CheckOwned(o1: Label, o2: Label) returns (r: int)
    ensures r == 0 || r == -1
    ensures r == 0 <==> Owned(o2) <= Owned(o1)
  {
    var i := 0;
    while i < 8
      invariant i <= 8
      invariant forall k :: 0 <= k < i && o2[k] != 0 ==> o2[k] in o1
    {
      if o2[i] != 0 {
        var owned := Holds(o2[i], o1);
        if !owned {
          assert o2[i] in Owned(o2) && o2[i] !in Owned(o1);
          return -1;
        }
      }
      i := i + 1;
    }
    return 0;
  }

  /** check_mem_prot */
  method CheckMemProt(l1: Label, o1: Label, l2: Label) returns (p: Prot)
    ensures p == Allowed(l1, o1, l2)
  {
    var pw := CheckLabel(l1, o1, l2, None);
    var pr := CheckLabel(l2, o1, l1, None);
    if pr == 0 && pw == 0 {
      return ReadWrite;
    } else if pr == 0 && pw == -1 {
      return ReadOnly;
    } else {
      return NoAccess;
    }
  }

  // Ownership

  /** The first blank slot at `i` or after it; 8 when there is none. */
  function FirstBlank(own: Label, i: nat): (r: nat)
    requires i <= 8
    ensures i <= r <= 8 && 0 !in own[i..r] && (r < 8 ==> own[r] == 0)
    decreases 8 - i
  {
    if i == 8 || own[i] == 0 then i else FirstBlank(own, i + 1)
  }

  /** add_onwership: the category goes to the first blank slot, or 0 comes back. */
  method AddOwnership(own: Label, cat: Cat) returns (own': Label, r: Cat)
    ensures var k := FirstBlank(own, 0);
      if k < 8 then r == cat && own' == own[k := cat] else r == 0 && own' == own
  {
    var i := 0;
    while i < 8
      invariant i <= 8 && FirstBlank(own, 0) == FirstBlank(own, i)
    {
      if own[i] == 0 {
        return own[i := cat], cat;
      }
      i := i + 1;
    }
    return own, 0;
  }

  /** Filling a blank slot adds exactly that category. */
  lemma FilledOwns(own: Label, k: nat, cat: Cat)
    requires k < 8 && own[k] == 0 && cat != 0
    ensures Owned(own[k := cat]) == Owned(own) + {cat}
  {
    var own' := own[k := cat];
    assert own'[k] == cat;
    forall c | c in Owned(own)
      ensures c in own'
    {
      var j :| 0 <= j < 8 && own[j] == c;
      assert own'[j] == c;
    }
  }

  // Categories

  /** The category that the generator at `gen` makes, and the generator after it. */
  function NextCat(gen: bv8, t: Cat): (Cat, bv8) {
    var g := gen + 1;
    (if g >= 0x80 then 0xff else t | (g & 0x7f), g)
  }

  /** The number inside a category. */
  function Number(c: Cat): bv8 { c & 0x7f }

  /** `k` is not a category still to come. */
  ghost predicate Past(k: Cat, gen: bv8) { Number(k) <= gen }

  /** The generator has not run out, and the type asked for adds no bit to the number of its turn. */
  ghost predicate Clean(gen: bv8, t: Cat) { gen < 0x7f && t & 0x7f & !(gen + 1) == 0 }

  /** Whatever type is asked for, a category is new exactly while the generator has not run out. */
  lemma NewIff(gen: bv8, t: Cat)
    ensures !Past(NextCat(gen, t).0, gen) <==> gen < 0x7f
  {}

  /** It has the number of its turn exactly if, besides, the type adds no bit to that. */
  lemma OwnNumberIff(gen: bv8, t: Cat)
    requires gen != 0xff
    ensures Number(NextCat(gen, t).0) == NextCat(gen, t).1 <==> Clean(gen, t)
  {}

  /** The two types are clean, and are what the category gets. */
  lemma TypesAreClean(gen: bv8, t: Cat)
    requires gen < 0x7f && (t == CAT_S || t == CAT_I)
    ensures Clean(gen, t) && CatType(NextCat(gen, t).0) == t && NextCat(gen, t).0 != 0
  {}

  /** An exhausted generator hands out one category over and over, and then starts again. */
  lemma ExhaustedCat(gen: bv8, t: Cat)
    ensures 0x7f <= gen < 0xff ==> NextCat(gen, t).0 == 0xff
    ensures gen == 0xff ==> NextCat(gen, t) == (t, 0)
  {}

  lemma PastStays(gen: bv8, t: Cat, k: Cat)
    requires gen != 0xff && Past(k, gen)
    ensures Past(k, NextCat(gen, t).1)
  {}

  lemma CleanIsPast(gen: bv8, t: Cat)
    requires Clean(gen, t)
    ensures gen != 0xff && Past(NextCat(gen, t).0, NextCat(gen, t).1) && !Past(NextCat(gen, t).0, gen) && NextCat(gen, t).0 != 0
  {}
}
