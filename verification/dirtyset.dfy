/** The dirty sets of shared/block.c: cached blocks are grouped into sets that must be written as
    one unit, and dirtying threads, the writeback worker and IO completions interleave over them.
    Every action below is one step of one of those contexts, between two accesses to shared state. */
module DirtySets {
  import opened Options

  type Bid = nat
  type Sid = nat
  type Tid = nat

  const DIRTY_LIMIT: int := 1024
  const SET_LIMIT: int := 64

  /** How far a block's write has come: not being written; charged to nr_writeback; on the submit
      list; completed with nr_writeback dropped; completed with submitted_blocks dropped as well. */
  datatype Io = Idle | Owed | Queued | Counted | Finished

  /** owner is bl->set, dirty is BL_DIRTY. debited marks a block whose set has already been taken
      out of nr_dirty; writes counts the block's completed writes. Neither is read by a step. */
  datatype Block = Block(owner: Option<Sid>, dirty: bool, io: Io, debited: bool, writes: nat)

  /** Where a set is in its life. Finishing and Releasing are the position of the completion that
      found submitted_blocks at zero; the other stages are not read by a step. */
  datatype Stage =
    | Open        // SET_DIRTY was never set
    | Pending     // on writeback_llist or writeback_list
    | Taken       // off the list, past the worker's test
    | Charged     // its size was added to nr_writeback
    | Flying      // its size was added to submitted_blocks
    | Finishing   // submitted_blocks fell to zero
    | Releasing   // its size was taken from nr_dirty
    | Done        // its blocks were let go and WRITEBACK cleared
    | Dead        // taken while empty

  /** dirtying is the SET_DIRTYING bit together with the thread that set it; a step of another
      thread only tests whether it is set. dirty and writeback are SET_DIRTY and SET_WRITEBACK. */
  datatype BlockSet = BlockSet(
    list: seq<Bid>, size: int, submitted: int, dirtySeq: nat,
    dirtying: Option<Tid>, dirty: bool, writeback: bool, stage: Stage)

  /** What a thread waits for once it has let go of its sets. ForSync has yet to see writeback_seq
      reach the number, ForIdle has seen it and has yet to see nr_writeback at zero. */
  datatype After = ForDirtying(on: Sid) | ForWriteback(on: Sid) | ForSync(upTo: nat) | ForIdle(upTo: nat) | Again

  /** The position of a thread. Loop to Merged are inside the loop of dirty_begin, i blocks in. */
  datatype Pc =
    | Outside
    | Loop(bs: seq<Bid>, i: nat, large: Option<Sid>)
    | Lock(bs: seq<Bid>, i: nat, large: Option<Sid>, small: Sid)
    | Locked(bs: seq<Bid>, i: nat, large: Option<Sid>, small: Sid)
    | Tested(bs: seq<Bid>, i: nat, large: Option<Sid>, small: Sid)
    | Both(bs: seq<Bid>, i: nat, first: Sid, small: Sid)
    | Merged(bs: seq<Bid>, i: nat, first: Sid, small: Sid)
    | Mark(bs: seq<Bid>, first: Sid, k: nat)
    | Commit(bs: seq<Bid>, first: Sid)
    | Modify(bs: seq<Bid>, first: Sid)
    | Release(bs: seq<Bid>, held: seq<Sid>, next: After)
    | Wait(bs: seq<Bid>, next: After)
    | Syncing(goal: nat)
    | SeenSeq(goal: nat)

  datatype Worker =
    | Resting
    | Picking
    | Testing(claim: Sid)
    | Backing(claim: Sid)
    | Waiting(claim: Sid)
    | Charging(claim: Sid)
    | Counting(claim: Sid)
    | Submitting(claim: Sid, todo: seq<Bid>)
    | Advancing(claim: Sid)

  /** llist is writeback_llist, last pushed first; list is writeback_list. */
  datatype State = State(
    blocks: seq<Block>, sets: seq<BlockSet>, threads: seq<Pc>, worker: Worker,
    llist: seq<Sid>, list: seq<Sid>,
    nrDirty: int, nrWriteback: int, dirtySeq: nat, writebackSeq: nat)

  // ---- identifiers in range ----

  function Seqs(o: Option<Sid>): seq<Sid> {
    if o.Some? then [o.value] else []
  }

  /** The sets whose DIRTYING bit a thread has set. */
  function Holds(pc: Pc): seq<Sid> {
    match pc
    case Loop(_, _, large) => Seqs(large)
    case Lock(_, _, large, _) => Seqs(large)
    case Locked(_, _, large, small) => Seqs(large) + [small]
    case Tested(_, _, large, small) => Seqs(large) + [small]
    case Both(_, _, first, small) => [first, small]
    case Merged(_, _, first, small) => [first, small]
    case Mark(_, first, _) => [first]
    case Commit(_, first) => [first]
    case Modify(_, first) => [first]
    case Release(_, held, _) => held
    case _ => []
  }

  /** The set a thread has read but not locked yet, or waits on. */
  function Eyes(pc: Pc): seq<Sid> {
    match pc
    case Lock(_, _, _, small) => [small]
    case Release(_, _, next) => AfterEyes(next)
    case Wait(_, next) => AfterEyes(next)
    case _ => []
  }

  function AfterEyes(a: After): seq<Sid> {
    if a.ForDirtying? || a.ForWriteback? then [a.on] else []
  }

  function Asked(pc: Pc): seq<Bid> {
    if pc.Outside? || pc.Syncing? || pc.SeenSeq? then [] else pc.bs
  }

  predicate InRange(ids: seq<nat>, n: nat) {
    forall k :: 0 <= k < |ids| ==> ids[k] < n
  }

  predicate PcTyped(pc: Pc, blocks: nat, sets: nat) {
    && InRange(Holds(pc), sets) && InRange(Eyes(pc), sets) && InRange(Asked(pc), blocks)
    && ((pc.Loop? || pc.Wait? || pc.Release?) ==> |pc.bs| > 0)
    && (pc.Loop? ==> pc.i <= |pc.bs|)
    && ((pc.Lock? || pc.Locked? || pc.Tested? || pc.Both? || pc.Merged?) ==> pc.i < |pc.bs|)
    && ((pc.Mark? || pc.Commit? || pc.Modify?) ==> |pc.bs| > 0)
  }

  predicate WorkerTyped(w: Worker, blocks: nat, sets: nat) {
    (w.Resting? || w.Picking? || w.claim < sets) && (w.Submitting? ==> InRange(w.todo, blocks))
  }

  predicate Typed(s: State) {
    && (forall b :: 0 <= b < |s.blocks| && s.blocks[b].owner.Some? ==> s.blocks[b].owner.value < |s.sets|)
    && (forall x :: 0 <= x < |s.sets| ==> InRange(s.sets[x].list, |s.blocks|))
    && (forall t :: 0 <= t < |s.threads| ==> PcTyped(s.threads[t], |s.blocks|, |s.sets|))
    && WorkerTyped(s.worker, |s.blocks|, |s.sets|)
    && InRange(s.llist, |s.sets|) && InRange(s.list, |s.sets|)
  }

  // ---- state updates ----

  function At(s: State, t: Tid, pc: Pc): State
    requires t < |s.threads|
  {
    s.(threads := s.threads[t := pc])
  }

  function WithSet(s: State, x: Sid, st: BlockSet): State
    requires x < |s.sets|
  {
    s.(sets := s.sets[x := st])
  }

  function WithBlock(s: State, b: Bid, bl: Block): State
    requires b < |s.blocks|
  {
    s.(blocks := s.blocks[b := bl])
  }

  /** The listed blocks handed to another set. */
  function Repointed(blocks: seq<Block>, list: seq<Bid>, y: Sid): (r: seq<Block>)
    ensures |r| == |blocks|
    ensures forall b :: 0 <= b < |r| ==> r[b] == if b in list then blocks[b].(owner := Some(y)) else blocks[b]
  {
    seq(|blocks|, b requires 0 <= b < |blocks| => if b in list then blocks[b].(owner := Some(y)) else blocks[b])
  }

  function Charge(blocks: seq<Block>, list: seq<Bid>): (r: seq<Block>)
    ensures |r| == |blocks|
    ensures forall b :: 0 <= b < |r| ==> r[b] == if b in list then blocks[b].(io := Owed) else blocks[b]
  {
    seq(|blocks|, b requires 0 <= b < |blocks| => if b in list then blocks[b].(io := Owed) else blocks[b])
  }

  function Debit(blocks: seq<Block>, list: seq<Bid>): (r: seq<Block>)
    ensures |r| == |blocks|
    ensures forall b :: 0 <= b < |r| ==> r[b] == if b in list then blocks[b].(debited := true) else blocks[b]
  {
    seq(|blocks|, b requires 0 <= b < |blocks| => if b in list then blocks[b].(debited := true) else blocks[b])
  }

  function Reverse(ids: seq<Sid>): (r: seq<Sid>)
    ensures |r| == |ids|
    ensures forall k :: 0 <= k < |ids| ==> r[k] == ids[|ids| - 1 - k]
  {
    if ids == [] then [] else Reverse(ids[1..]) + [ids[0]]
  }

  // ---- dirty_begin and dirty_end ----

  /** get_other_set for the next block: skip it, add it to the set being built, find its set, or
      make one. Once every block is in, the walk that marks them starts at the tail. */
  function Fetch(s: State, t: Tid, pc: Pc): Option<State>
    requires Typed(s) && t < |s.threads| && pc == s.threads[t] && pc.Loop?
  {
    if pc.i == |pc.bs| then
      if pc.large.None? then None
      else
        var x := pc.large.value;
        assert x == Holds(pc)[0];
        Some(At(s, t, Mark(pc.bs, x, |s.sets[x].list|)))
    else
      var b := pc.bs[pc.i];
      assert b == Asked(pc)[pc.i];
      var owner := s.blocks[b].owner;
      if owner.Some? then
        if pc.large == owner then Some(At(s, t, Loop(pc.bs, pc.i + 1, pc.large)))
        else Some(At(s, t, Lock(pc.bs, pc.i, pc.large, owner.value)))
      else if pc.large.Some? then
        var x := pc.large.value;
        assert x == Holds(pc)[0];
        var st := s.sets[x];
        var s1 := WithBlock(s, b, s.blocks[b].(owner := Some(x)));
        var s2 := WithSet(s1, x, st.(list := st.list + [b], size := st.size + 1));
        Some(At(s2, t, Loop(pc.bs, pc.i + 1, pc.large)))
      else
        // dirty_seq is 0 here; the code leaves it as the allocation returned it.
        var x := |s.sets|;
        var s1 := WithBlock(s, b, s.blocks[b].(owner := Some(x)));
        var created := BlockSet([b], 1, 0, 0, None, false, false, Open);
        Some(At(s1.(sets := s1.sets + [created]), t, Lock(pc.bs, pc.i, pc.large, x)))
  }

  /** The allocation in get_other_set fails: dirty_begin returns the error. */
  function AllocFails(s: State, t: Tid, pc: Pc): Option<State>
    requires Typed(s) && t < |s.threads| && pc == s.threads[t] && pc.Loop?
  {
    if pc.i < |pc.bs| && pc.large.None? && s.blocks[Asked(pc)[pc.i]].owner.None? then
      Some(At(s, t, Outside))
    else None
  }

  /** test_and_set_bit(SET_DIRTYING); on failure let go of the set being built, then wait. */
  function TryLock(s: State, t: Tid, pc: Pc): Option<State>
    requires Typed(s) && t < |s.threads| && pc == s.threads[t] && pc.Lock?
  {
    var x := pc.small;
    assert x == Eyes(pc)[0];
    if s.sets[x].dirtying.Some? then Some(At(s, t, Release(pc.bs, Seqs(pc.large), ForDirtying(x))))
    else
      var s1 := WithSet(s, x, s.sets[x].(dirtying := Some(t)));
      Some(At(s1, t, Locked(pc.bs, pc.i, pc.large, x)))
  }

  /** test_bit(SET_WRITEBACK) after the DIRTYING bit was set. */
  function TestWriteback(s: State, t: Tid, pc: Pc): Option<State>
    requires Typed(s) && t < |s.threads| && pc == s.threads[t] && pc.Locked?
  {
    var x := pc.small;
    assert x == Holds(pc)[|Holds(pc)| - 1];
    if s.sets[x].writeback then Some(At(s, t, Release(pc.bs, [x] + Seqs(pc.large), ForWriteback(x))))
    else Some(At(s, t, Tested(pc.bs, pc.i, pc.large, x)))
  }

  /** The block may have left the set between the load of bl->set and the lock, so the load is
      repeated here under the lock. The code does not do this. */
  function CheckOwner(s: State, t: Tid, pc: Pc): Option<State>
    requires Typed(s) && t < |s.threads| && pc == s.threads[t] && pc.Tested?
  {
    var x := pc.small;
    assert pc.bs == Asked(pc) && x == Holds(pc)[|Holds(pc)| - 1];
    if s.blocks[pc.bs[pc.i]].owner != Some(x) then
      Some(At(s, t, Release(pc.bs, [x] + Seqs(pc.large), Again)))
    else if pc.large.None? then
      Some(At(s, t, Loop(pc.bs, pc.i + 1, Some(x))))
    else
      assert pc.large.value == Holds(pc)[0];
      Some(At(s, t, Both(pc.bs, pc.i, pc.large.value, x)))
  }

  /** How many blocks at the front of the list are dirty. */
  function Front(list: seq<Bid>, blocks: seq<Block>): (n: nat)
    requires InRange(list, |blocks|)
    ensures n <= |list|
    ensures forall k :: 0 <= k < n ==> blocks[list[k]].dirty
    ensures n < |list| ==> !blocks[list[n]].dirty
  {
    if list == [] || !blocks[list[0]].dirty then 0
    else
      assert forall k :: 0 <= k < |list[1..]| ==> list[1..][k] == list[k + 1];
      1 + Front(list[1..], blocks)
  }

  /** The merged list: dirty blocks of both sets, then the ones not yet dirty. The code splices
      small's whole list in front of large's, which can bury clean blocks under dirty ones. */
  function Splice(l: seq<Bid>, s: seq<Bid>, blocks: seq<Block>): seq<Bid>
    requires InRange(l, |blocks|) && InRange(s, |blocks|)
  {
    var p, q := Front(l, blocks), Front(s, blocks);
    l[..p] + s[..q] + l[p..] + s[q..]
  }

  /** Whether the two sets change places before the merge. The code only compares sizes; a set that
      has a place in the writeback order must survive one that has none. */
  predicate Swaps(large: BlockSet, small: BlockSet) {
    if large.dirty != small.dirty then small.dirty else small.size > large.size
  }

  /** Every block of set x moves to set y: bl->set, the lists and sizes, and SET_DIRTY of x. */
  function MergedState(s: State, t: Tid, pc: Pc, x: Sid, y: Sid): State
    requires t < |s.threads| && pc.Both? && x < |s.sets| && y < |s.sets|
    requires InRange(s.sets[x].list, |s.blocks|) && InRange(s.sets[y].list, |s.blocks|)
  {
    var large, small := s.sets[y], s.sets[x];
    var m := Splice(large.list, small.list, s.blocks);
    var kept := large.(list := m, size := large.size + small.size);
    var emptied := small.(list := [], size := 0, dirty := false);
    At(s.(blocks := Repointed(s.blocks, small.list, y), sets := s.sets[y := kept][x := emptied]),
       t, Merged(pc.bs, pc.i, y, x))
  }

  /** Both sets are locked: write the larger one out if the merge would exceed the limit, otherwise
      move every block of the smaller set over. */
  function Merge(s: State, t: Tid, pc: Pc): Option<State>
    requires Typed(s) && t < |s.threads| && pc == s.threads[t] && pc.Both?
  {
    assert Holds(pc)[0] == pc.first && Holds(pc)[1] == pc.small;
    var swap := Swaps(s.sets[pc.first], s.sets[pc.small]);
    var y := if swap then pc.small else pc.first;
    var x := if swap then pc.first else pc.small;
    var large, small := s.sets[y], s.sets[x];
    if large.size + small.size > SET_LIMIT then
      Some(At(s, t, Release(pc.bs, [x, y], ForSync(large.dirtySeq))))
    else if x == y then None
    else Some(MergedState(s, t, pc, x, y))
  }

  /** Clear DIRTYING on the emptied set and go on with the next block. */
  function DropSmall(s: State, t: Tid, pc: Pc): Option<State>
    requires Typed(s) && t < |s.threads| && pc == s.threads[t] && pc.Merged?
  {
    var x := pc.small;
    assert Holds(pc)[0] == pc.first && Holds(pc)[1] == x;
    var s1 := WithSet(s, x, s.sets[x].(dirtying := None));
    Some(At(s1, t, Loop(pc.bs, pc.i + 1, Some(pc.first))))
  }

  /** One step of the walk from the tail that marks blocks dirty until it meets a dirty one. */
  function MarkOne(s: State, t: Tid, pc: Pc): Option<State>
    requires Typed(s) && t < |s.threads| && pc == s.threads[t] && pc.Mark?
  {
    assert pc.first == Holds(pc)[0];
    var st := s.sets[pc.first];
    if pc.k > |st.list| then None
    else if pc.k == 0 || s.blocks[st.list[pc.k - 1]].dirty then
      Some(At(s, t, Commit(pc.bs, pc.first)))
    else
      var b := st.list[pc.k - 1];
      var s1 := WithBlock(s, b, s.blocks[b].(dirty := true));
      Some(At(s1.(nrDirty := s1.nrDirty + 1), t, Mark(pc.bs, pc.first, pc.k - 1)))
  }

  /** test_and_set_bit(SET_DIRTY): a set dirtied for the first time gets the next sequence number
      and is pushed for the worker. The code takes the number and pushes in two steps. */
  function CommitSet(s: State, t: Tid, pc: Pc): Option<State>
    requires Typed(s) && t < |s.threads| && pc == s.threads[t] && pc.Commit?
  {
    var x := pc.first;
    assert x == Holds(pc)[0];
    var st := s.sets[x];
    if st.dirty then Some(At(s, t, Modify(pc.bs, x)))
    else
      var s1 := WithSet(s, x, st.(dirty := true, dirtySeq := s.dirtySeq + 1, stage := Pending));
      var s2 := s1.(dirtySeq := s.dirtySeq + 1, llist := [x] + s.llist);
      Some(At(s2, t, Modify(pc.bs, x)))
  }

  /** dirty_end: clear DIRTYING on the set its first block points to. */
  function End(s: State, t: Tid, pc: Pc): Option<State>
    requires Typed(s) && t < |s.threads| && pc == s.threads[t] && pc.Modify?
  {
    assert pc.bs == Asked(pc);
    var owner := s.blocks[pc.bs[0]].owner;
    if owner.None? then None
    else
      var s1 := WithSet(s, owner.value, s.sets[owner.value].(dirtying := None));
      Some(At(s1, t, Outside))
  }

  /** clear_set_dirtying, one step: drop the last block if it is not dirty, else clear the bit. */
  function ReleaseOne(s: State, t: Tid, pc: Pc): Option<State>
    requires Typed(s) && t < |s.threads| && pc == s.threads[t] && pc.Release?
  {
    if pc.held == [] then Some(At(s, t, Wait(pc.bs, pc.next)))
    else
      var x := pc.held[0];
      assert x == Holds(pc)[0];
      var st := s.sets[x];
      var n := |st.list|;
      if n > 0 && !s.blocks[st.list[n - 1]].dirty then
        var b := st.list[n - 1];
        var s1 := WithBlock(s, b, s.blocks[b].(owner := None));
        Some(WithSet(s1, x, st.(list := st.list[..n - 1], size := st.size - 1)))
      else
        var s1 := WithSet(s, x, st.(dirtying := None));
        Some(At(s1, t, Release(pc.bs, pc.held[1..], pc.next)))
  }

  /** The wait is over: start again from the first block. sync_up_to_seq loads its two counters one
      after the other. */
  function Resume(s: State, t: Tid, pc: Pc): Option<State>
    requires Typed(s) && t < |s.threads| && pc == s.threads[t] && pc.Wait?
  {
    var again := Loop(pc.bs, 0, None);
    match pc.next
    case ForDirtying(x) =>
      assert x == Eyes(pc)[0];
      if s.sets[x].dirtying.None? then Some(At(s, t, again)) else None
    case ForWriteback(x) =>
      assert x == Eyes(pc)[0];
      if !s.sets[x].writeback then Some(At(s, t, again)) else None
    case ForSync(n) =>
      if s.writebackSeq >= n then Some(At(s, t, Wait(pc.bs, ForIdle(n)))) else None
    case ForIdle(n) =>
      Some(At(s, t, if s.nrWriteback == 0 then again else Wait(pc.bs, ForSync(n))))
    case Again => Some(At(s, t, again))
  }

  // ---- the writeback worker ----

  function WorkerStep(s: State): Option<State>
    requires Typed(s)
  {
    match s.worker
    case Resting =>
      Some(s.(list := s.list + Reverse(s.llist), llist := [], worker := Picking))
    case Picking =>
      if s.list == [] then Some(s.(worker := Resting))
      else
        var x := s.list[0];
        Some(WithSet(s, x, s.sets[x].(writeback := true)).(worker := Testing(x)))
    case Testing(x) =>
      if s.sets[x].dirtying.Some? then Some(s.(worker := Backing(x)))
      else if s.list == [] then None
      else Some(WithSet(s, x, s.sets[x].(stage := Taken)).(list := s.list[1..], worker := Charging(x)))
    case Backing(x) =>
      Some(WithSet(s, x, s.sets[x].(writeback := false)).(worker := Waiting(x)))
    case Waiting(x) =>
      if s.sets[x].dirtying.Some? then None else Some(s.(worker := Resting))
    case Charging(x) =>
      var st := s.sets[x];
      if st.size > 0 then
        var s1 := WithSet(s, x, st.(stage := Charged));
        Some(s1.(blocks := Charge(s.blocks, st.list), nrWriteback := s.nrWriteback + st.size,
                 worker := Counting(x)))
      else Some(WithSet(s, x, st.(stage := Dead)).(worker := Advancing(x)))
    case Counting(x) =>
      var st := s.sets[x];
      Some(WithSet(s, x, st.(submitted := st.submitted + st.size, stage := Flying)).(
             worker := Submitting(x, st.list)))
    case Submitting(x, todo) =>
      if todo == [] then Some(s.(worker := Advancing(x)))
      else Some(WithBlock(s, todo[0], s.blocks[todo[0]].(io := Queued)).(
                  worker := Submitting(x, todo[1..])))
    case Advancing(x) =>
      Some(s.(writebackSeq := s.writebackSeq + 1, worker := Picking))
  }

  /** should_writeback says stop. It reads counters that other contexts change, so it may say so
      before any set. */
  function WorkerBreaks(s: State): Option<State> {
    if s.worker.Picking? then Some(s.(worker := Resting)) else None
  }

  // ---- IO completions ----

  /** end_write_io drops nr_writeback. */
  function IoDone(s: State, b: Bid): Option<State>
    requires Typed(s) && b < |s.blocks|
  {
    var bl := s.blocks[b];
    if bl.io != Queued then None
    else
      Some(WithBlock(s, b, bl.(io := Counted, writes := bl.writes + 1)).(nrWriteback := s.nrWriteback - 1))
  }

  /** end_write_io drops the set's submitted_blocks and sees whether it was the last one. */
  function Drop(s: State, b: Bid): Option<State>
    requires Typed(s) && b < |s.blocks|
  {
    var bl := s.blocks[b];
    if bl.io != Counted || bl.owner.None? then None
    else
      var x := bl.owner.value;
      var st := s.sets[x];
      var left := st.submitted - 1;
      var s1 := WithBlock(s, b, bl.(io := Finished));
      Some(WithSet(s1, x, st.(submitted := left, stage := if left > 0 then st.stage else Finishing)))
  }

  /** The last completion of a set, step by step: take its size from nr_dirty, let each block go,
      clear WRITEBACK. Clearing BL_DIRTY with the block is what the code's comment says; its loop
      does not do it. */
  function Retire(s: State, x: Sid): Option<State>
    requires Typed(s) && x < |s.sets|
  {
    var st := s.sets[x];
    if st.stage.Finishing? then
      var s1 := WithSet(s, x, st.(size := 0, stage := Releasing));
      Some(s1.(blocks := Debit(s.blocks, st.list), nrDirty := s.nrDirty - st.size))
    else if st.stage.Releasing? then
      if st.list != [] then
        var b := st.list[0];
        var s1 := WithBlock(s, b, s.blocks[b].(owner := None, dirty := false, io := Idle, debited := false));
        Some(WithSet(s1, x, st.(list := st.list[1..])))
      else
        Some(WithSet(s, x, st.(writeback := false, stage := Done)))
    else None
  }

  // ---- all steps ----

  datatype Action =
    | Begin(t: Tid, want: seq<Bid>)
    | Dirtier(t: Tid)
    | Fails(t: Tid)
    | Sync(t: Tid)
    | Work
    | WorkStops
    | Completes(b: Bid)
    | Drops(b: Bid)
    | Retires(x: Sid)

  function DirtierStep(s: State, t: Tid): Option<State>
    requires Typed(s) && t < |s.threads|
  {
    var pc := s.threads[t];
    match pc
    case Loop(_, _, _) => Fetch(s, t, pc)
    case Lock(_, _, _, _) => TryLock(s, t, pc)
    case Locked(_, _, _, _) => TestWriteback(s, t, pc)
    case Tested(_, _, _, _) => CheckOwner(s, t, pc)
    case Both(_, _, _, _) => Merge(s, t, pc)
    case Merged(_, _, _, _) => DropSmall(s, t, pc)
    case Mark(_, _, _) => MarkOne(s, t, pc)
    case Commit(_, _) => CommitSet(s, t, pc)
    case Modify(_, _) => End(s, t, pc)
    case Release(_, _, _) => ReleaseOne(s, t, pc)
    case Wait(_, _) => Resume(s, t, pc)
    case _ => None
  }

  /** ngnfs_block_sync: remember dirty_seq, wait until writeback_seq reached it, then until
      nr_writeback is zero. */
  function SyncStep(s: State, t: Tid): Option<State>
    requires t < |s.threads|
  {
    match s.threads[t]
    case Outside => Some(At(s, t, Syncing(s.dirtySeq)))
    case Syncing(n) => if s.writebackSeq >= n then Some(At(s, t, SeenSeq(n))) else None
    case SeenSeq(n) => Some(At(s, t, if s.nrWriteback == 0 then Outside else Syncing(n)))
    case _ => None
  }

  /** Errors: a failed allocation, or a sync that an IO error cut short. */
  function FailStep(s: State, t: Tid): Option<State>
    requires Typed(s) && t < |s.threads|
  {
    var pc := s.threads[t];
    if pc.Loop? then AllocFails(s, t, pc)
    else if (pc.Wait? && (pc.next.ForSync? || pc.next.ForIdle?)) || pc.Syncing? || pc.SeenSeq? then Some(At(s, t, Outside))
    else None
  }

  function Next(s: State, a: Action): Option<State>
    requires Typed(s)
  {
    match a
    case Begin(t, want) =>
      if t < |s.threads| && s.threads[t].Outside? && want != [] && InRange(want, |s.blocks|)
         && s.nrDirty < DIRTY_LIMIT then
        Some(At(s, t, Loop(want, 0, None)))
      else None
    case Dirtier(t) => if t < |s.threads| then DirtierStep(s, t) else None
    case Fails(t) => if t < |s.threads| then FailStep(s, t) else None
    case Sync(t) => if t < |s.threads| then SyncStep(s, t) else None
    case Work => WorkerStep(s)
    case WorkStops => WorkerBreaks(s)
    case Completes(b) => if b < |s.blocks| then IoDone(s, b) else None
    case Drops(b) => if b < |s.blocks| then Drop(s, b) else None
    case Retires(x) => if x < |s.sets| then Retire(s, x) else None
  }

  /** ngnfs_block_setup: any number of cached blocks and threads, no set yet. */
  predicate Initial(s: State) {
    && (forall b :: 0 <= b < |s.blocks| ==> s.blocks[b] == Block(None, false, Idle, false, 0))
    && s.sets == [] && s.llist == [] && s.list == [] && s.worker == Resting
    && (forall t :: 0 <= t < |s.threads| ==> s.threads[t] == Outside)
    && s.nrDirty == 0 && s.nrWriteback == 0 && s.dirtySeq == 0 && s.writebackSeq == 0
  }
}
