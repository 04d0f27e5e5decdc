/** Ordered writes: the request queue, its barriers, and the flush sequence of one barrier.

    A request's `epoch` counts the barriers queued before it.  The code does not know it; it
    only has one colour bit, the parity of the epoch as long as only barriers turn it.
 */
module BarrierModel {
  import opened Options

  /** `Normal` requests come from outside; `Pre`, `Bar` and `Post` are the three requests the
      queue itself issues for the barrier in progress.  `stop` is set while any of the flags
      SOFTBARRIER, HARDBARRIER or STARTED is. */
  datatype Rq =
    | Normal(id: nat, fs: bool, barrier: bool, write: bool, sector: nat, sectors: nat, color: bool, stop: bool, epoch: nat)
    | Pre
    | Bar
    | Post
  {
    predicate Fs() { Bar? || (Normal? && fs) }

    predicate Stop() { !Normal? || stop }

    // a barrier to blk_do_ordered; `barrier` alone is the flag HARDBARRIER
    predicate Barrier() { Normal? && fs && barrier }
  }

  /** The bits of q->ordseq. */
  datatype OrdSeq = OrdSeq(started: bool, drain: bool, pre: bool, bar: bool, post: bool)

  const IDLE := OrdSeq(false, false, false, false, false)

  const DRAIN := 0x02
  const PREFLUSH := 0x04
  const BAR := 0x08
  const POSTFLUSH := 0x10
  const DONE := 0x20

  function Word(o: OrdSeq): nat {
    (if o.started then 0x01 else 0) + (if o.drain then DRAIN else 0) + (if o.pre then PREFLUSH else 0)
    + (if o.bar then BAR else 0) + (if o.post then POSTFLUSH else 0)
  }

  /** 1 << ffz(w): the lowest clear bit. */
  function LowestClear(w: nat): nat {
    if w % 2 == 0 then 1 else 2 * LowestClear(w / 2)
  }

  /** blk_ordered_cur_seq */
  function CurSeq(o: OrdSeq): nat {
    if Word(o) == 0 then 0 else LowestClear(Word(o))
  }

  lemma Shifted(w: nat, bit: bool)
    ensures LowestClear(2 * w + if bit then 1 else 0) == if bit then 2 * LowestClear(w) else 1
  {}

  /** The current step is the first one that is not complete. */
  lemma CurSeqIsFirstIncomplete(o: OrdSeq)
    requires o.started
    ensures CurSeq(o) == if !o.drain then DRAIN else if !o.pre then PREFLUSH else if !o.bar then BAR
                         else if !o.post then POSTFLUSH else DONE
  {
    var post := if o.post then 1 else 0;
    var bar := 2 * post + if o.bar then 1 else 0;
    var pre := 2 * bar + if o.pre then 1 else 0;
    var drain := 2 * pre + if o.drain then 1 else 0;
    assert Word(o) == 2 * drain + 1;
    Shifted(drain, true);
    Shifted(pre, o.drain);
    Shifted(bar, o.pre);
    Shifted(post, o.bar);
    Shifted(0, o.post);
  }

  /** The queue.  `sorted` holds the requests the scheduler has not dispatched; `issued` and
      `special` the ones the driver has, `issued` being those that count in q->in_flight.
      `added` and `completed` count barriers queued and barriers finished. */
  datatype State = State(
    queue: seq<Rq>, sorted: multiset<Rq>, issued: multiset<Rq>, special: multiset<Rq>,
    ordseq: OrdSeq, orig: Option<Rq>, ordcolor: bool, added: nat, completed: nat)
  {
    predicate Active() { orig.Some? }
  }

  const INITIAL := State([], multiset{}, multiset{}, multiset{}, IDLE, None, false, 0, 0)

  /** blk_ordered_req_seq */
  function ReqSeq(orig: Option<Rq>, r: Rq): nat {
    match r
    case Pre => PREFLUSH
    case Bar => BAR
    case Post => POSTFLUSH
    case Normal(_, fs, _, _, _, _, color, _, _) =>
      if !fs || (orig.Some? && orig.value.Normal? && color == orig.value.color) then DRAIN else DONE
  }

  function Or(a: OrdSeq, b: OrdSeq): OrdSeq {
    OrdSeq(a.started || b.started, a.drain || b.drain, a.pre || b.pre, a.bar || b.bar, a.post || b.post)
  }

  predicate Overlap(a: OrdSeq, b: OrdSeq) {
    (a.started && b.started) || (a.drain && b.drain) || (a.pre && b.pre) || (a.bar && b.bar) || (a.post && b.post)
  }

  const DRAIN_BIT := IDLE.(drain := true)

  /** The bit an internal request sets when it ends. */
  function BitOf(r: Rq): OrdSeq {
    match r
    case Pre => IDLE.(pre := true)
    case Bar => IDLE.(bar := true)
    case Post => IDLE.(post := true)
    case Normal(_, _, _, _, _, _, _, _, _) => IDLE
  }

  /** blk_ordered_complete_seq */
  function CompleteSeq(s: State, bits: OrdSeq): State {
    var o := Or(s.ordseq, bits);
    if CurSeq(o) == DONE then
      s.(ordseq := IDLE, orig := None, completed := s.completed + 1)
    else
      s.(ordseq := o)
  }

  function Insert(q: seq<Rq>, j: nat, r: Rq): seq<Rq>
    requires j <= |q|
  {
    q[..j] + [r] + q[j..]
  }

  /** What the driver may take: the answer of blk_do_ordered for a request that is not a barrier
      about to start its sequence. */
  predicate Allowed(s: State, r: Rq) {
    if !s.Active() then !r.Barrier()
    else (r.Normal? && !r.fs) || ReqSeq(s.orig, r) <= CurSeq(s.ordseq)
  }

  /** The place of a requeued request while a sequence is in progress. */
  function RequeueSlot(s: State, r: Rq, k: nat): (j: nat)
    requires k <= |s.queue|
    ensures k <= j <= |s.queue|
    ensures forall i :: k <= i < j ==> ReqSeq(s.orig, s.queue[i]) < ReqSeq(s.orig, r)
    ensures j < |s.queue| ==> ReqSeq(s.orig, r) <= ReqSeq(s.orig, s.queue[j])
    decreases |s.queue| - k
  {
    if k == |s.queue| || ReqSeq(s.orig, r) <= ReqSeq(s.orig, s.queue[k]) then k else RequeueSlot(s, r, k + 1)
  }

  /** No request from index `j` on carries a flag that stops elv_dispatch_sort. */
  predicate Passable(q: seq<Rq>, j: nat) {
    j <= |q| && forall i :: j <= i < |q| ==> !q[i].Stop()
  }

  datatype Event =
    | AddSorted(id: nat, write: bool, sector: nat, sectors: nat)
    | AddBack(id: nat, fs: bool, barrier: bool, write: bool, sector: nat, sectors: nat)
    | AddFront(id: nat, hard: bool, write: bool, sector: nat, sectors: nat)
    | Dispatch(r: Rq, slot: nat)
    | Start(preflush: bool, postflush: bool)
    | Peek
    | Fetch
    | Requeue(r: Rq)
    | Complete(r: Rq)

  /** What must hold for an event to be possible.  A back insertion finds the scheduler drained,
      and file system requests are not inserted at the front. */
  predicate Enabled(s: State, e: Event)
  {
    match e
    case AddSorted(_, _, _, _) => true
    case AddBack(_, fs, barrier, _, _, _) => s.sorted == multiset{}
    case AddFront(_, _, _, _, _) => true
    case Dispatch(r, slot) => r in s.sorted && Passable(s.queue, slot)
    case Start(_, _) => !s.Active() && s.queue != [] && s.queue[0].Barrier()
    case Peek => s.queue != [] && Allowed(s, s.queue[0])
    case Fetch => s.queue != [] && Allowed(s, s.queue[0])
    case Requeue(r) => r in s.issued || r in s.special
    case Complete(r) => r in s.issued || r in s.special
  }

  /** A request without its flag, as the driver holds it. */
  function Bare(r: Rq): Rq {
    if r.Normal? then r.(stop := false) else r
  }

  predicate Insertion(e: Event) { e.AddSorted? || e.AddBack? || e.AddFront? }

  /** The insertion of a file system request. */
  predicate FsInsertion(e: Event) { e.AddSorted? || (e.AddBack? && e.fs) }

  /** The insertion of a request that carries HARDBARRIER and is not a file system request: it
      turns the colour, and starts no sequence. */
  predicate HardInsertion(e: Event) { (e.AddBack? && !e.fs && e.barrier) || (e.AddFront? && e.hard) }

  function Stopped(r: Rq): Rq {
    if r.Normal? then r.(stop := true) else r
  }

  function Push(wanted: bool, r: Rq, q: seq<Rq>): seq<Rq> {
    if wanted then [r] + q else q
  }

  /** start_ordered on the barrier at the head. */
  function StartOrdered(s: State, preflush: bool, postflush: bool): State
    requires s.queue != [] && s.queue[0].Barrier()
  {
    var b := s.queue[0];
    var doBar := b.sectors != 0;
    var doPost := postflush && b.sectors != 0;
    var q := Push(preflush, Pre, Push(doBar, Bar, Push(doPost, Post, s.queue[1..])));
    var skip := OrdSeq(false, s.issued == multiset{}, !preflush, !doBar, !doPost);
    CompleteSeq(s.(queue := q, orig := Some(b), ordseq := IDLE.(started := true)), skip)
  }

  /** The part of elv_completed_request after the counters. */
  function Drained(s: State): State
  {
    if s.Active() && s.issued == multiset{} && CurSeq(s.ordseq) == DRAIN && (s.queue == [] || ReqSeq(s.orig, s.queue[0]) > DRAIN)
    then CompleteSeq(s, DRAIN_BIT)
    else s
  }

  function Remove(s: State, r: Rq): State {
    if r.Fs() then s.(issued := s.issued - multiset{r}) else s.(special := s.special - multiset{r})
  }

  /** The driver dequeues the first request. */
  function Taken(s: State): State
    requires s.queue != []
  {
    var r := Bare(s.queue[0]);
    var t := s.(queue := s.queue[1..]);
    if r.Fs() then t.(issued := t.issued + multiset{r}) else t.(special := t.special + multiset{r})
  }

  function RequeueRq(s: State, r: Rq): State
  {
    var t := Remove(s, r);
    var j := if s.Active() then RequeueSlot(s, r, 0) else 0;
    t.(queue := Insert(s.queue, j, Stopped(r)))
  }

  function CompleteRq(s: State, r: Rq): State
  {
    var t := Drained(Remove(s, r));
    if r.Normal? then t else CompleteSeq(t, BitOf(r))
  }

  function Step(s: State, e: Event): State
    requires Enabled(s, e)
  {
    match e
    case AddSorted(id, write, sector, sectors) =>
      s.(sorted := s.sorted + multiset{Normal(id, true, false, write, sector, sectors, s.ordcolor, false, s.added)})
    case AddBack(id, fs, barrier, write, sector, sectors) =>
      var r := Normal(id, fs, barrier, write, sector, sectors, s.ordcolor, true, s.added);
      var t := s.(queue := s.queue + [r]);
      t.(ordcolor := s.ordcolor != barrier, added := if fs && barrier then s.added + 1 else s.added)
    case AddFront(id, hard, write, sector, sectors) =>
      s.(queue := [Normal(id, false, hard, write, sector, sectors, s.ordcolor, true, s.added)] + s.queue,
         ordcolor := s.ordcolor != hard)
    case Dispatch(r, slot) => s.(queue := Insert(s.queue, slot, r), sorted := s.sorted - multiset{r})
    case Start(preflush, postflush) => StartOrdered(s, preflush, postflush)
    case Peek => s.(queue := s.queue[0 := Stopped(s.queue[0])])
    case Fetch => Taken(s)
    case Requeue(r) => RequeueRq(s, r)
    case Complete(r) => CompleteRq(s, r)
  }
}
