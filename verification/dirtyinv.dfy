/** What every step of the dirty-set protocol keeps (shared/block.c:431-973). */
module DirtyInvariant {
  import opened Options
  import opened DirtySets

  // ---- lists of blocks ----

  predicate Distinct(ids: seq<nat>) {
    forall i, j :: 0 <= i < j < |ids| ==> ids[i] != ids[j]
  }

  /** Every listed block points back to the set. */
  predicate PointBack(list: seq<Bid>, blocks: seq<Block>, x: Sid)
    requires InRange(list, |blocks|)
  {
    forall k :: 0 <= k < |list| ==> blocks[list[k]].owner == Some(x)
  }

  predicate AllDirty(list: seq<Bid>, blocks: seq<Block>)
    requires InRange(list, |blocks|)
  {
    forall k :: 0 <= k < |list| ==> blocks[list[k]].dirty
  }

  predicate AllClean(list: seq<Bid>, blocks: seq<Block>)
    requires InRange(list, |blocks|)
  {
    forall k :: 0 <= k < |list| ==> !blocks[list[k]].dirty
  }

  /** No clean block stands before a dirty one: the clean blocks are a suffix. */
  predicate DirtyFirst(list: seq<Bid>, blocks: seq<Block>)
    requires InRange(list, |blocks|)
  {
    forall i, j :: 0 <= i < j < |list| && blocks[list[j]].dirty ==> blocks[list[i]].dirty
  }

  predicate AllIo(list: seq<Bid>, blocks: seq<Block>, io: Io)
    requires InRange(list, |blocks|)
  {
    forall k :: 0 <= k < |list| ==> blocks[list[k]].io == io
  }

  predicate NoneIo(list: seq<Bid>, blocks: seq<Block>, io: Io)
    requires InRange(list, |blocks|)
  {
    forall k :: 0 <= k < |list| ==> blocks[list[k]].io != io
  }

  predicate AllDebited(list: seq<Bid>, blocks: seq<Block>, d: bool)
    requires InRange(list, |blocks|)
  {
    forall k :: 0 <= k < |list| ==> blocks[list[k]].debited == d
  }

  /** How many listed blocks have not dropped submitted_blocks yet. */
  function Unfinished(list: seq<Bid>, blocks: seq<Block>): nat
    requires InRange(list, |blocks|)
  {
    if list == [] then 0
    else
      var b := list[|list| - 1];
      Unfinished(list[..|list| - 1], blocks) + if blocks[b].io == Finished then 0 else 1
  }

  // ---- counting ----

  /** The number of blocks in nr_dirty, in nr_writeback, and between the two decrements. */
  function CountDirty(blocks: seq<Block>): nat {
    if blocks == [] then 0
    else
      var bl := blocks[|blocks| - 1];
      CountDirty(blocks[..|blocks| - 1]) + if bl.dirty && !bl.debited then 1 else 0
  }

  predicate InWriteback(io: Io) {
    io == Owed || io == Queued
  }

  function CountWriteback(blocks: seq<Block>): nat {
    if blocks == [] then 0
    else CountWriteback(blocks[..|blocks| - 1]) + if InWriteback(blocks[|blocks| - 1].io) then 1 else 0
  }

  function CountCounted(blocks: seq<Block>): nat {
    if blocks == [] then 0
    else CountCounted(blocks[..|blocks| - 1]) + if blocks[|blocks| - 1].io == Counted then 1 else 0
  }

  function SumSubmitted(sets: seq<BlockSet>): int {
    if sets == [] then 0 else SumSubmitted(sets[..|sets| - 1]) + sets[|sets| - 1].submitted
  }

  // ---- sets ----

  /** The stages in which a dirtier past its WRITEBACK test may find a set. */
  predicate Calm(stage: Stage) {
    stage == Open || stage == Pending
  }

  /** The stages in which the worker has passed its DIRTYING test and WRITEBACK is still set. */
  predicate Written(stage: Stage) {
    stage == Taken || stage == Charged || stage == Flying || stage == Finishing || stage == Releasing
  }

  /** What the IO of a set's blocks looks like in each stage. */
  predicate IoOk(st: BlockSet, blocks: seq<Block>)
    requires InRange(st.list, |blocks|)
  {
    match st.stage
    case Charged => st.submitted == 0 && AllIo(st.list, blocks, Owed)
    case Flying => st.submitted == Unfinished(st.list, blocks) > 0 && NoneIo(st.list, blocks, Idle)
    case Finishing => st.submitted == 0 && AllIo(st.list, blocks, Finished)
    case Releasing => st.submitted == 0 && AllIo(st.list, blocks, Finished)
    case _ => st.submitted == 0 && AllIo(st.list, blocks, Idle)
  }

  /** What the bits say. SET_DIRTY stays set on a written set, which is never used again. */
  predicate BitsOk(st: BlockSet) {
    && (st.stage == Open ==> !st.dirty)
    && (st.stage == Pending && st.list != [] ==> st.dirty)
    && (Written(st.stage) || st.stage == Dead ==> st.writeback)
    && (st.stage == Open || st.stage == Done ==> !st.writeback)
    && (st.stage == Open <==> st.dirtySeq == 0)
    && (st.stage == Done || st.stage == Dead ==> st.list == [])
    && st.size == if st.stage == Releasing then 0 else |st.list|
  }

  /** A set no dirtier may be changing holds only dirty blocks, or only clean ones if it is new. */
  predicate Settled(st: BlockSet, blocks: seq<Block>)
    requires InRange(st.list, |blocks|)
  {
    if st.stage == Open then AllClean(st.list, blocks) else AllDirty(st.list, blocks)
  }

  predicate SetOk(x: Sid, st: BlockSet, blocks: seq<Block>) {
    && InRange(st.list, |blocks|) && Distinct(st.list) && PointBack(st.list, blocks, x)
    && IoOk(st, blocks) && BitsOk(st)
    && AllDebited(st.list, blocks, st.stage == Releasing)
    && (st.dirtying.None? || !Calm(st.stage) ==> Settled(st, blocks))
    && (st.stage == Pending && st.list != [] ==> blocks[st.list[0]].dirty)
  }

  // ---- blocks ----

  predicate BlockOk(b: Bid, bl: Block, sets: seq<BlockSet>) {
    if bl.owner.Some? then bl.owner.value < |sets| && b in sets[bl.owner.value].list
    else !bl.dirty && bl.io == Idle && !bl.debited
  }

  // ---- threads ----

  /** Every block already asked for is in the set. */
  predicate Joined(bs: seq<Bid>, i: nat, blocks: seq<Block>, x: Sid)
    requires InRange(bs, |blocks|)
  {
    forall j :: 0 <= j < i && j < |bs| ==> blocks[bs[j]].owner == Some(x)
  }

  /** A set this thread holds, as far as its clean blocks go. */
  predicate Shaped(st: BlockSet, blocks: seq<Block>) {
    Calm(st.stage) ==>
      && InRange(st.list, |blocks|)
      && DirtyFirst(st.list, blocks) && (st.stage == Open ==> AllClean(st.list, blocks))
  }

  predicate Own(x: Sid, t: Tid, sets: seq<BlockSet>) {
    x < |sets| && sets[x].dirtying == Some(t)
  }

  /** The set a thread is collecting its blocks in: locked, not under writeback, not empty. */
  predicate Building(large: Option<Sid>, bs: seq<Bid>, i: nat, t: Tid, blocks: seq<Block>, sets: seq<BlockSet>)
    requires InRange(bs, |blocks|)
  {
    if large.None? then i == 0
    else
      && i > 0 && Own(large.value, t, sets) && Calm(sets[large.value].stage)
      && Shaped(sets[large.value], blocks) && Joined(bs, i, blocks, large.value)
  }

  /** The walk from the tail has reached position k. */
  predicate Marking(st: BlockSet, k: nat, blocks: seq<Block>) {
    && Calm(st.stage) && InRange(st.list, |blocks|) && k <= |st.list|
    && DirtyFirst(st.list[..k], blocks)
    && (forall j :: k <= j < |st.list| ==> blocks[st.list[j]].dirty)
    && (st.stage == Open ==> forall j :: 0 <= j < k ==> !blocks[st.list[j]].dirty)
  }

  predicate ThreadOk(t: Tid, pc: Pc, blocks: seq<Block>, sets: seq<BlockSet>) {
    && PcTyped(pc, |blocks|, |sets|) && Distinct(Holds(pc))
    && match pc
       case Loop(bs, i, large) => Building(large, bs, i, t, blocks, sets)
       case Lock(bs, i, large, small) => Building(large, bs, i, t, blocks, sets) && large != Some(small)
       case Locked(bs, i, large, small) =>
         && Building(large, bs, i, t, blocks, sets)
         && Own(small, t, sets) && Shaped(sets[small], blocks)
       case Tested(bs, i, large, small) =>
         && Building(large, bs, i, t, blocks, sets)
         && Own(small, t, sets) && Shaped(sets[small], blocks)
         && (Calm(sets[small].stage) || sets[small].stage == Done)
       case Both(bs, i, first, small) =>
         && Building(Some(first), bs, i, t, blocks, sets)
         && Own(small, t, sets) && Shaped(sets[small], blocks)
         && Calm(sets[small].stage) && blocks[bs[i]].owner == Some(small)
       case Merged(bs, i, first, small) =>
         && Building(Some(first), bs, i + 1, t, blocks, sets)
         && Own(small, t, sets) && Calm(sets[small].stage) && sets[small].list == []
       case Mark(bs, first, k) =>
         && Own(first, t, sets) && Marking(sets[first], k, blocks) && Joined(bs, |bs|, blocks, first)
       case Commit(bs, first) =>
         && Own(first, t, sets) && Marking(sets[first], 0, blocks) && Joined(bs, |bs|, blocks, first)
       case Modify(bs, first) =>
         && Own(first, t, sets) && Marking(sets[first], 0, blocks) && Joined(bs, |bs|, blocks, first)
         && sets[first].stage == Pending
       case Release(bs, held, next) =>
         forall k :: 0 <= k < |held| ==> Own(held[k], t, sets) && Shaped(sets[held[k]], blocks)
       case _ => true
  }

  /** A DIRTYING bit belongs to a thread that holds the set. */
  predicate Held(x: Sid, st: BlockSet, threads: seq<Pc>) {
    st.dirtying.Some? ==> st.dirtying.value < |threads| && x in Holds(threads[st.dirtying.value])
  }

  // ---- the writeback order ----

  /** The sets in the order the worker will take them. */
  function Queue(s: State): seq<Sid> {
    s.list + Reverse(s.llist)
  }

  /** The worker has taken a set and not advanced writeback_seq yet. */
  predicate Busy(w: Worker) {
    w.Charging? || w.Counting? || w.Submitting? || w.Advancing?
  }

  function Base(s: State): nat {
    s.writebackSeq + if Busy(s.worker) then 1 else 0
  }

  /** Pending sets carry exactly the numbers after writeback_seq, in order, up to dirty_seq. */
  predicate InTurn(s: State) {
    var q := Queue(s);
    && Base(s) + |q| == s.dirtySeq
    && (forall j :: 0 <= j < |q| ==>
          && q[j] < |s.sets| && s.sets[q[j]].stage == Pending && s.sets[q[j]].dirtySeq == Base(s) + 1 + j)
    && (forall x :: 0 <= x < |s.sets| && s.sets[x].stage == Pending ==> x in q)
  }

  predicate Claims(w: Worker, x: Sid) {
    (w.Testing? || w.Backing?) && w.claim == x
  }

  predicate WorkerOk(s: State) {
    && WorkerTyped(s.worker, |s.blocks|, |s.sets|)
    && (forall x :: 0 <= x < |s.sets| && s.sets[x].stage == Pending ==>
          (s.sets[x].writeback <==> Claims(s.worker, x)))
    && (forall x :: 0 <= x < |s.sets| && s.sets[x].stage == Taken ==> s.worker == Charging(x))
    && (forall x :: 0 <= x < |s.sets| && s.sets[x].stage == Charged ==> s.worker == Counting(x))
    && (forall x :: 0 <= x < |s.sets| && s.sets[x].stage != Open && s.sets[x].stage != Pending ==>
          s.sets[x].dirtySeq <= Base(s))
    && match s.worker
       case Testing(x) => s.list != [] && s.list[0] == x
       case Backing(x) => s.list != [] && s.list[0] == x
       case Charging(x) => s.sets[x].stage == Taken && s.sets[x].dirtySeq == s.writebackSeq + 1
       case Counting(x) =>
         && s.sets[x].stage == Charged && s.sets[x].dirtySeq == s.writebackSeq + 1 && s.sets[x].list != []
       case Submitting(x, todo) => Distinct(todo) && AllIo(todo, s.blocks, Owed) && AllFlying(todo, s.blocks, s.sets)
       case _ => true
  }

  /** The blocks still to be submitted belong to sets in flight. */
  predicate AllFlying(todo: seq<Bid>, blocks: seq<Block>, sets: seq<BlockSet>)
    requires InRange(todo, |blocks|)
  {
    forall k :: 0 <= k < |todo| ==>
      && blocks[todo[k]].owner.Some? && blocks[todo[k]].owner.value < |sets|
      && sets[blocks[todo[k]].owner.value].stage == Flying
  }

  predicate CountsOk(s: State) {
    && s.nrDirty == CountDirty(s.blocks)
    && s.nrWriteback == CountWriteback(s.blocks)
    && s.nrWriteback + CountCounted(s.blocks) == SumSubmitted(s.sets) + Uncounted(s.worker, s.sets)
  }

  /** What the worker has charged to nr_writeback but not to submitted_blocks yet. */
  function Uncounted(w: Worker, sets: seq<BlockSet>): int {
    if w.Counting? && w.claim < |sets| then sets[w.claim].size else 0
  }

  predicate SyncsOk(s: State) {
    forall t :: 0 <= t < |s.threads| && s.threads[t].SeenSeq? ==> s.threads[t].goal <= s.writebackSeq
  }

  predicate SetsOk(s: State) {
    forall x :: 0 <= x < |s.sets| ==> SetOk(x, s.sets[x], s.blocks)
  }

  predicate BlocksOk(s: State) {
    forall b :: 0 <= b < |s.blocks| ==> BlockOk(b, s.blocks[b], s.sets)
  }

  predicate ThreadsOk(s: State) {
    forall t :: 0 <= t < |s.threads| ==> ThreadOk(t, s.threads[t], s.blocks, s.sets)
  }

  predicate HeldsOk(s: State) {
    forall x :: 0 <= x < |s.sets| ==> Held(x, s.sets[x], s.threads)
  }

  predicate Inv(s: State) {
    && SetsOk(s) && BlocksOk(s) && ThreadsOk(s) && HeldsOk(s)
    && InTurn(s) && WorkerOk(s) && CountsOk(s) && SyncsOk(s)
  }
}
