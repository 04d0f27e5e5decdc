/** Tags of commands in flight: a bit map of tags in use and, beside it, the request behind each. */
module BlkTag {
  import opened Options

  /** The request behind each tag, and the tag each request carries. */
  ghost predicate Matched(bits: seq<bool>, index: seq<Option<nat>>, tagOf: map<nat, nat>) {
    && |bits| == |index|
    && (forall t :: 0 <= t < |bits| ==> (bits[t] <==> index[t].Some?))
    && (forall t :: 0 <= t < |index| && index[t].Some? ==> index[t].value in tagOf && tagOf[index[t].value] == t)
    && (forall r :: r in tagOf ==> tagOf[r] < |index| && index[tagOf[r]] == Some(r))
  }

  /** No two requests share a tag. */
  lemma TagsAreUnique(bits: seq<bool>, index: seq<Option<nat>>, tagOf: map<nat, nat>, r: nat, s: nat)
    requires Matched(bits, index, tagOf) && r in tagOf && s in tagOf && tagOf[r] == tagOf[s]
    ensures r == s
  {}

  /** The tags a request may take: two are kept for synchronous requests. */
  function Limit(maxDepth: nat, sync: bool): nat {
    if !sync && maxDepth > 1 then (if maxDepth == 2 then 1 else maxDepth - 2) else maxDepth
  }

  /** The depth init_tag_map settles for. */
  function Adjusted(depth: nat, nrRequests: nat): nat {
    if depth > nrRequests * 2 then nrRequests * 2 else depth
  }

  /** Growing keeps room for the old tags exactly when twice the queue's requests does. */
  lemma GrowthFits(depth: nat, nrRequests: nat, used: nat)
    requires depth > used
    ensures used <= Adjusted(depth, nrRequests) <==> used <= nrRequests * 2
  {}

  const BLKDEV_MIN_RQ := 4

  datatype Resized = Done | Busy | Overrun

  class Tags {
    var bits: seq<bool>
    var index: seq<Option<nat>>
    var tagOf: map<nat, nat>
    var maxDepth: nat
    var realMaxDepth: nat
    var nrRequests: nat

    ghost predicate Valid()
      reads this
    {
      && Matched(bits, index, tagOf) && realMaxDepth == |bits| && maxDepth <= realMaxDepth
    }

    /** init_tag_map */
    constructor (depth: nat, nrRequests: nat)
      ensures Valid() && tagOf == map[] && this.nrRequests == nrRequests
      ensures maxDepth == realMaxDepth == Adjusted(depth, nrRequests)
    {
      var n := Adjusted(depth, nrRequests);
      this.nrRequests := nrRequests;
      bits, index := seq(n, _ => false), seq(n, _ => None);
      tagOf, maxDepth, realMaxDepth := map[], n, n;
    }

    /** queue_requests_store */
    method ChangeRequests(nr: nat)
      requires Valid()
      modifies this`nrRequests
      ensures Valid() && nrRequests == if nr < BLKDEV_MIN_RQ then BLKDEV_MIN_RQ else nr
    {
      nrRequests := if nr < BLKDEV_MIN_RQ then BLKDEV_MIN_RQ else nr;
    }

    /** find_first_zero_bit */
    method FirstZero(limit: nat) returns (t: nat)
      requires limit <= |bits|
      ensures t <= limit && (t < limit ==> !bits[t]) && forall i :: 0 <= i < t ==> bits[i]
    {
      t := 0;
      while t < limit && bits[t]
        invariant t <= limit && forall i :: 0 <= i < t ==> bits[i]
      {
        t := t + 1;
      }
    }

    /** blk_queue_start_tag: the lowest free tag below the limit. */
    method Start(r: nat, sync: bool, asyncInFlight: nat) returns (tag: Option<nat>)
      requires Valid() && r !in tagOf
      modifies this`bits, this`index, this`tagOf
      ensures Valid()
      ensures tag.None? <==>
        (!sync && maxDepth > 1 && asyncInFlight > Limit(maxDepth, sync))
        || (forall t :: 0 <= t < Limit(maxDepth, sync) ==> old(bits)[t])
      ensures tag.None? ==> tagOf == old(tagOf) && bits == old(bits) && index == old(index)
      ensures tag.Some? ==>
        && tag.value < Limit(maxDepth, sync) && !old(bits)[tag.value] && (forall t :: 0 <= t < tag.value ==> old(bits)[t])
        && tagOf == old(tagOf)[r := tag.value]
    {
      var limit := maxDepth;
      if !sync && limit > 1 {
        limit := limit - 2;
        if limit == 0 {
          limit := 1;
        }
        if asyncInFlight > limit {
          return None;
        }
      }
      var t := FirstZero(limit);
      if t >= limit {
        return None;
      }
      bits := bits[t := true];
      tagOf := tagOf[r := t];
      index := index[t := Some(r)];
      tag := Some(t);
    }

    /** blk_queue_end_tag */
    method End(r: nat)
      requires Valid() && r in tagOf
      modifies this`bits, this`index, this`tagOf
      ensures Valid()
      ensures tagOf == old(tagOf) - {r}
      ensures bits == old(bits)[old(tagOf)[r] := false]
    {
      var tag := tagOf[r];
      // the depth is never really reduced, the tag is known and its bit is set
      assert tag < realMaxDepth && index[tag] == Some(r) && bits[tag];
      tagOf := tagOf - {r};
      index := index[tag := None];
      bits := bits[tag := false];
    }

    /** blk_queue_resize_tags.  Shrinking only lowers the limit; growing copies the old maps into
        new ones.  `Overrun` is the copy that does not fit: the original then writes past the end of
        the new maps, and nothing is promised. */
    method Resize(depth: nat, shared: bool) returns (result: Resized)
      requires Valid()
      modifies this`bits, this`index, this`maxDepth, this`realMaxDepth
      ensures result == Busy <==> depth > old(realMaxDepth) && shared
      ensures result == Overrun <==> depth > old(realMaxDepth) && !shared && old(realMaxDepth) > nrRequests * 2
      ensures result != Overrun ==>
        && Valid()
        && old(bits) <= bits && forall t :: |old(bits)| <= t < |bits| ==> !bits[t]
      ensures result == Busy ==> maxDepth == old(maxDepth) && realMaxDepth == old(realMaxDepth)
      ensures result == Done ==>
        if depth <= old(realMaxDepth) then maxDepth == depth && realMaxDepth == old(realMaxDepth)
        else maxDepth == realMaxDepth == Adjusted(depth, nrRequests)
    {
      if depth <= realMaxDepth {
        maxDepth := depth;
        return Done;
      }
      if shared {
        return Busy;
      }
      GrowthFits(depth, nrRequests, realMaxDepth);
      var n := Adjusted(depth, nrRequests);
      if realMaxDepth > n {
        return Overrun;
      }
      bits := bits + seq(n - realMaxDepth, _ => false);
      index := index + seq(n - realMaxDepth, _ => None);
      realMaxDepth, maxDepth := n, n;
      return Done;
    }
  }

  /** The overrun happens: a queue of eight requests with sixteen tags is cut to four requests and
      then asked for seventeen tags. */
  method GrowthCanOverrun() returns (tags: Tags, result: Resized)
    ensures result == Overrun
  {
    tags := new Tags(16, 8);
    tags.ChangeRequests(4);
    result := tags.Resize(17, false);
  }
}
