/** Dirty blocks that share a set are written together, and what a sync has waited for when it
    returns (shared/block.c:330-351, 431-470, 798-973, 998-1007). */
module DirtySync {
  import opened Options
  import opened Tally
  import opened DirtySets
  import opened DirtyInvariant
  import opened DirtyFrames
  import opened DirtySteps
  import opened DirtyWork
  import opened DirtyRuns

  // ---- what a dirtying thread's step leaves alone ----

  /** Set numbers, WRITEBACK bits and stages stay, but for a set dirtied for the first time. */
  predicate SetsStay(s: State, pc: Pc, r: State) {
    && |r.sets| >= |s.sets|
    && (forall x :: 0 <= x < |s.sets| ==>
          || (r.sets[x].stage == s.sets[x].stage && r.sets[x].dirtySeq == s.sets[x].dirtySeq
              && r.sets[x].writeback == s.sets[x].writeback)
          || (pc.Commit? && pc.first == x && !s.sets[x].dirty && r.sets[x].stage == Pending
              && r.sets[x].dirtySeq == s.dirtySeq + 1 == r.dirtySeq))
    && (forall x :: |s.sets| <= x < |r.sets| ==> r.sets[x].dirtySeq == 0)
  }

  /** Only this thread moves, no write completes, and a dirty block changes only in a merge. */
  predicate Local(s: State, t: Tid, r: State) {
    && |r.blocks| == |s.blocks| && |r.threads| == |s.threads| && t < |s.threads|
    && (forall u :: 0 <= u < |s.threads| && u != t ==> r.threads[u] == s.threads[u])
    && !r.threads[t].Syncing? && !r.threads[t].SeenSeq?
    && r.dirtySeq >= s.dirtySeq && r.writebackSeq == s.writebackSeq && r.worker == s.worker
    && (forall b :: 0 <= b < |s.blocks| ==> r.blocks[b].writes == s.blocks[b].writes)
    && (forall b :: 0 <= b < |s.blocks| && s.blocks[b].dirty && s.blocks[b].owner.Some? ==>
          s.threads[t].Both? || r.blocks[b] == s.blocks[b])
  }

  lemma FetchLocal(s: State, t: Tid, pc: Pc, r: State)
    requires Typed(s) && t < |s.threads| && pc == s.threads[t] && pc.Loop? && Fetch(s, t, pc) == Some(r)
    ensures Local(s, t, r) && SetsStay(s, pc, r)
  {
    if pc.i < |pc.bs| {
      assert Asked(pc)[pc.i] == pc.bs[pc.i];
    }
    if pc.large.Some? {
      assert Holds(pc)[0] == pc.large.value;
    }
  }

  lemma LockLocal(s: State, t: Tid, pc: Pc, r: State)
    requires Typed(s) && t < |s.threads| && pc == s.threads[t]
    requires (pc.Lock? && TryLock(s, t, pc) == Some(r)) || (pc.Locked? && TestWriteback(s, t, pc) == Some(r))
          || (pc.Tested? && CheckOwner(s, t, pc) == Some(r))
    ensures Local(s, t, r) && SetsStay(s, pc, r)
  {
    if pc.Lock? {
      assert Eyes(pc)[0] == pc.small;
    }
  }

  lemma MergeLocal(s: State, t: Tid, pc: Pc, r: State)
    requires Typed(s) && t < |s.threads| && pc == s.threads[t] && pc.Both? && Merge(s, t, pc) == Some(r)
    ensures Local(s, t, r) && SetsStay(s, pc, r)
  {
    hide MergedState, Local, SetsStay, Swaps;
    assert Holds(pc)[0] == pc.first && Holds(pc)[1] == pc.small;
    var swap := Swaps(s.sets[pc.first], s.sets[pc.small]);
    var y := if swap then pc.small else pc.first;
    var x := if swap then pc.first else pc.small;
    if s.sets[y].size + s.sets[x].size > SET_LIMIT {
      StillLocal(s, t, pc, r);
    } else {
      MergedLocal(s, t, pc, x, y);
    }
  }

  lemma StillLocal(s: State, t: Tid, pc: Pc, r: State)
    requires t < |s.threads| == |r.threads| && pc == s.threads[t] && r == At(s, t, r.threads[t])
    requires !r.threads[t].Syncing? && !r.threads[t].SeenSeq?
    ensures Local(s, t, r) && SetsStay(s, pc, r)
  {
  }

  lemma MergedLocal(s: State, t: Tid, pc: Pc, x: Sid, y: Sid)
    requires t < |s.threads| && pc == s.threads[t] && pc.Both? && x < |s.sets| && y < |s.sets| && x != y
    requires InRange(s.sets[x].list, |s.blocks|) && InRange(s.sets[y].list, |s.blocks|)
    ensures Local(s, t, MergedState(s, t, pc, x, y)) && SetsStay(s, pc, MergedState(s, t, pc, x, y))
  {
    hide Splice;
  }

  lemma MarkLocal(s: State, t: Tid, pc: Pc, r: State)
    requires Typed(s) && t < |s.threads| && pc == s.threads[t]
    requires (pc.Mark? && MarkOne(s, t, pc) == Some(r)) || (pc.Commit? && CommitSet(s, t, pc) == Some(r))
    ensures Local(s, t, r) && SetsStay(s, pc, r)
  {
    assert Holds(pc)[0] == pc.first;
  }

  lemma UnlockLocal(s: State, t: Tid, pc: Pc, r: State)
    requires Typed(s) && t < |s.threads| && pc == s.threads[t]
    requires (pc.Merged? && DropSmall(s, t, pc) == Some(r)) || (pc.Modify? && End(s, t, pc) == Some(r))
    ensures Local(s, t, r) && SetsStay(s, pc, r)
  {
    if pc.Modify? {
      assert Asked(pc)[0] == pc.bs[0];
    } else {
      assert Holds(pc)[1] == pc.small;
    }
  }

  lemma ReleaseLocal(s: State, t: Tid, pc: Pc, r: State)
    requires Typed(s) && t < |s.threads| && pc == s.threads[t]
    requires (pc.Release? && ReleaseOne(s, t, pc) == Some(r)) || (pc.Wait? && Resume(s, t, pc) == Some(r))
    ensures Local(s, t, r) && SetsStay(s, pc, r)
  {
    if pc.Release? {
      BackOffLocal(s, t, pc, r);
    } else {
      hide Local, SetsStay;
      StillLocal(s, t, pc, r);
    }
  }

  lemma BackOffLocal(s: State, t: Tid, pc: Pc, r: State)
    requires Typed(s) && t < |s.threads| && pc == s.threads[t] && pc.Release? && ReleaseOne(s, t, pc) == Some(r)
    ensures Local(s, t, r) && SetsStay(s, pc, r)
  {
    if pc.held != [] {
      assert Holds(pc)[0] == pc.held[0];
    }
  }

  lemma DirtierLocal(s: State, t: Tid, r: State)
    requires Typed(s) && t < |s.threads| && DirtierStep(s, t) == Some(r)
    ensures Local(s, t, r) && SetsStay(s, s.threads[t], r)
  {
    hide Fetch, TryLock, TestWriteback, CheckOwner, Merge, DropSmall, MarkOne, CommitSet, End, ReleaseOne, Resume;
    hide Local, SetsStay;
    var pc := s.threads[t];
    match pc
    case Loop(_, _, _) => FetchLocal(s, t, pc, r);
    case Lock(_, _, _, _) => LockLocal(s, t, pc, r);
    case Locked(_, _, _, _) => LockLocal(s, t, pc, r);
    case Tested(_, _, _, _) => LockLocal(s, t, pc, r);
    case Both(_, _, _, _) => MergeLocal(s, t, pc, r);
    case Merged(_, _, _, _) => UnlockLocal(s, t, pc, r);
    case Mark(_, _, _) => MarkLocal(s, t, pc, r);
    case Commit(_, _) => MarkLocal(s, t, pc, r);
    case Modify(_, _) => UnlockLocal(s, t, pc, r);
    case Release(_, _, _) => ReleaseLocal(s, t, pc, r);
    case Wait(_, _) => ReleaseLocal(s, t, pc, r);
    case _ =>
  }

  // ---- what one step does to a dirty block ----

  /** The set that takes over x's blocks in this step: another one only if x is merged away. */
  function Target(s: State, a: Action, x: Sid): Sid {
    if a.Dirtier? && a.t < |s.threads| && s.threads[a.t].Both? then
      var pc := s.threads[a.t];
      if pc.first < |s.sets| && pc.small < |s.sets|
         && s.sets[pc.first].size + s.sets[pc.small].size <= SET_LIMIT then
        var swap := Swaps(s.sets[pc.first], s.sets[pc.small]);
        if x == (if swap then pc.first else pc.small) then (if swap then pc.small else pc.first) else x
      else x
    else x
  }

  /** The block's last write has not completed. */
  predicate Unwritten(bl: Block) {
    bl.io == Idle || bl.io == Owed || bl.io == Queued
  }

  /** What may happen to a dirty block of set x in one step. */
  predicate Follows(bl: Block, after: Block, y: Sid) {
    && after.owner == Some(y) && after.dirty && after.writes >= bl.writes
    && (Unwritten(bl) ==> Unwritten(after) || after.writes > bl.writes)
  }

  predicate Tracked(s: State, b: Bid, x: Sid) {
    && b < |s.blocks| && x < |s.sets| && s.blocks[b].owner == Some(x) && s.blocks[b].dirty
    && s.sets[x].stage != Releasing
  }

  lemma MergeBlock(s: State, t: Tid, pc: Pc, r: State, b: Bid, x: Sid)
    requires Inv(s) && Typed(s) && t < |s.threads| && pc == s.threads[t] && pc.Both?
    requires Merge(s, t, pc) == Some(r) && Tracked(s, b, x)
    ensures |r.blocks| == |s.blocks| && Follows(s.blocks[b], r.blocks[b], Target(s, Dirtier(t), x))
  {
    hide SetsOk, BlocksOk, ThreadsOk, HeldsOk, InTurn, WorkerOk, CountsOk, SyncsOk, Splice;
    assert Holds(pc)[0] == pc.first && Holds(pc)[1] == pc.small;
    var swap := Swaps(s.sets[pc.first], s.sets[pc.small]);
    var z := if swap then pc.first else pc.small;
    Listed(s, b, z);
  }

  lemma DirtierBlock(s: State, t: Tid, r: State, b: Bid, x: Sid)
    requires Inv(s) && Typed(s) && t < |s.threads| && DirtierStep(s, t) == Some(r) && Tracked(s, b, x)
    ensures |r.blocks| == |s.blocks| && Follows(s.blocks[b], r.blocks[b], Target(s, Dirtier(t), x))
  {
    hide Inv, Follows, Fetch, Merge, TryLock, TestWriteback, CheckOwner, DropSmall, MarkOne, CommitSet, End, ReleaseOne;
    hide Typed, SetsStay;
    DirtierLocal(s, t, r);
    if s.threads[t].Both? {
      MergeBlock(s, t, s.threads[t], r, b, x);
    } else {
      FollowsItself(s.blocks[b], x);
    }
  }

  lemma FollowsItself(bl: Block, x: Sid)
    requires bl.owner == Some(x) && bl.dirty
    ensures Follows(bl, bl, x)
  {
  }

  lemma WorkBlock(s: State, r: State, b: Bid, x: Sid)
    requires Inv(s) && Typed(s) && WorkerStep(s) == Some(r) && Tracked(s, b, x)
    ensures |r.blocks| == |s.blocks| && Follows(s.blocks[b], r.blocks[b], x)
  {
    hide SetsOk, BlocksOk, ThreadsOk, HeldsOk, InTurn, CountsOk, SyncsOk;
    if s.worker.Charging? {
      var y := s.worker.claim;
      SetAt(s, y);
      if b in s.sets[y].list {
        Member(y, s.sets[y], s.blocks, b);
      }
    } else if s.worker.Submitting? && s.worker.todo != [] {
      assert s.blocks[s.worker.todo[0]].io == Owed;
    }
  }

  lemma RetireBlock(s: State, y: Sid, r: State, b: Bid, x: Sid)
    requires Inv(s) && Typed(s) && y < |s.sets| && Retire(s, y) == Some(r) && Tracked(s, b, x)
    ensures |r.blocks| == |s.blocks| && Follows(s.blocks[b], r.blocks[b], x)
  {
    hide SetsOk, BlocksOk, ThreadsOk, HeldsOk, InTurn, WorkerOk, CountsOk, SyncsOk, SetOk;
    SetAt(s, y);
    if s.sets[y].stage == Releasing && s.sets[y].list != [] {
      Member(y, s.sets[y], s.blocks, s.sets[y].list[0]);
    }
  }

  /** A dirty block stays dirty and follows its set until the set, written in full, is let go. */
  lemma BlockStep(s: State, a: Action, r: State, b: Bid, x: Sid)
    requires Inv(s) && Typed(s) && Next(s, a) == Some(r) && Tracked(s, b, x)
    ensures |r.blocks| == |s.blocks| && Follows(s.blocks[b], r.blocks[b], Target(s, a, x))
  {
    hide Inv, Typed, DirtierStep, WorkerStep, Retire;
    match a
    case Dirtier(t) => DirtierBlock(s, t, r, b, x);
    case Work => WorkBlock(s, r, b, x);
    case Retires(y) => RetireBlock(s, y, r, b, x);
    case _ =>
  }

  // ---- sharing a set ----

  /** Two dirty blocks of one set are in one set after any step, unless the set is being let go. */
  lemma SharersStay(s: State, a: Action, r: State, b: Bid, c: Bid)
    requires Inv(s) && Typed(s) && Next(s, a) == Some(r)
    requires b < |s.blocks| && c < |s.blocks| && s.blocks[b].dirty && s.blocks[c].dirty
    requires s.blocks[b].owner.Some? && s.blocks[c].owner == s.blocks[b].owner
    requires s.blocks[b].owner.value < |s.sets| && s.sets[s.blocks[b].owner.value].stage != Releasing
    ensures |r.blocks| == |s.blocks| && r.blocks[b].dirty && r.blocks[c].dirty
    ensures r.blocks[b].owner.Some? && r.blocks[c].owner == r.blocks[b].owner
  {
    hide Inv, Typed, Next;
    var x := s.blocks[b].owner.value;
    BlockStep(s, a, r, b, x);
    BlockStep(s, a, r, c, x);
  }

  /** A set is let go only after every one of its blocks was written. */
  lemma LetGoIsWritten(s: State, b: Bid, x: Sid)
    requires Reachable(s) && b < |s.blocks| && x < |s.sets| && s.blocks[b].owner == Some(x)
    requires s.sets[x].stage == Releasing
    ensures s.blocks[b].io == Finished && s.blocks[b].dirty && s.sets[x].submitted == 0
  {
    hide Reachable, SetsOk, BlocksOk, ThreadsOk, HeldsOk, InTurn, WorkerOk, CountsOk, SyncsOk;
    ReachableHolds(s);
    Listed(s, b, x);
    SetAt(s, x);
    Member(x, s.sets[x], s.blocks, b);
  }

  /** Somewhere on the way the block's set is let go. */
  predicate LetGo(s: State, acts: seq<Action>, b: Bid)
    decreases |acts|
  {
    || (b < |s.blocks| && s.blocks[b].owner.Some? && s.blocks[b].owner.value < |s.sets|
        && s.sets[s.blocks[b].owner.value].stage == Releasing)
    || (acts != [] && Typed(s) && Next(s, acts[0]).Some? && LetGo(Next(s, acts[0]).value, acts[1..], b))
  }

  /** Over a whole run, dirty blocks that share a set keep sharing one, and stay dirty, until that
      set has been written in full. */
  lemma TogetherUntilWritten(s: State, acts: seq<Action>, r: State, b: Bid, c: Bid)
    requires Reachable(s) && Exec(s, acts) == Some(r)
    requires b < |s.blocks| && c < |s.blocks| && s.blocks[b].dirty && s.blocks[c].dirty
    requires s.blocks[b].owner.Some? && s.blocks[c].owner == s.blocks[b].owner
    ensures LetGo(s, acts, b)
         || (b < |r.blocks| && c < |r.blocks| && r.blocks[b].dirty && r.blocks[c].dirty
             && r.blocks[b].owner.Some? && r.blocks[c].owner == r.blocks[b].owner)
  {
    hide Reachable, Inv, Exec, LetGo;
    ReachableHolds(s);
    TogetherRun(s, acts, r, b, c);
  }

  lemma {:induction false} TogetherRun(s: State, acts: seq<Action>, r: State, b: Bid, c: Bid)
    requires Inv(s) && Exec(s, acts) == Some(r)
    requires b < |s.blocks| && c < |s.blocks| && s.blocks[b].dirty && s.blocks[c].dirty
    requires s.blocks[b].owner.Some? && s.blocks[c].owner == s.blocks[b].owner
    ensures LetGo(s, acts, b)
         || (b < |r.blocks| && c < |r.blocks| && r.blocks[b].dirty && r.blocks[c].dirty
             && r.blocks[b].owner.Some? && r.blocks[c].owner == r.blocks[b].owner)
    decreases |acts|
  {
    hide Inv, Typed, Next;
    if acts != [] && !LetGo(s, [], b) {
      InvTyped(s);
      var m := Next(s, acts[0]).value;
      OwnerInRange(s, b);
      SharersStay(s, acts[0], m, b, c);
      StepKeeps(s, acts[0], m);
      TogetherRun(m, acts[1..], r, b, c);
    }
  }

  lemma OwnerInRange(s: State, b: Bid)
    requires Inv(s) && b < |s.blocks| && s.blocks[b].owner.Some?
    ensures s.blocks[b].owner.value < |s.sets|
  {
    hide SetsOk, ThreadsOk, HeldsOk, InTurn, WorkerOk, CountsOk, SyncsOk;
    BlockAt(s, b);
  }

  /** A block leaves a set without another only if it never became dirty or the whole set was
      written. */
  lemma LeavesEarlyOnlyClean(s: State, a: Action, r: State, b: Bid, x: Sid)
    requires Reachable(s) && Typed(s) && Next(s, a) == Some(r) && b < |s.blocks| && x < |s.sets|
    requires s.blocks[b].owner == Some(x) && b < |r.blocks| && r.blocks[b].owner.None?
    ensures !s.blocks[b].dirty || (s.sets[x].stage == Releasing && AllIo(s.sets[x].list, s.blocks, Finished))
  {
    hide Reachable, SetsOk, BlocksOk, ThreadsOk, HeldsOk, InTurn, WorkerOk, CountsOk, SyncsOk, Typed, Next;
    ReachableHolds(s);
    if s.blocks[b].dirty {
      if s.sets[x].stage != Releasing {
        BlockStep(s, a, r, b, x);
      } else {
        SetAt(s, x);
      }
    }
  }

  // ---- what one step does to a set ----

  predicate SetFollows(st: BlockSet, after: BlockSet) {
    && (st.dirtySeq > 0 ==> after.dirtySeq == st.dirtySeq)
    && (st.stage == Dead ==> after.stage == Dead && after.writeback)
    && (after.stage == Open ==> st.stage == Open)
  }

  predicate SetsFollow(s: State, r: State) {
    && |r.sets| >= |s.sets| && r.dirtySeq >= s.dirtySeq && r.writebackSeq >= s.writebackSeq
    && forall x :: 0 <= x < |s.sets| ==> SetFollows(s.sets[x], r.sets[x])
  }

  lemma SetStep(s: State, a: Action, r: State)
    requires Inv(s) && Typed(s) && Next(s, a) == Some(r)
    ensures SetsFollow(s, r)
  {
    hide Inv, Typed, DirtierStep, WorkerStep, Splice, SetFollows;
    SetBits(s);
    match a
    case Dirtier(t) => SetStepDirtier(s, t, r);
    case Work => SetStepWork(s, r);
    case Drops(b) => SetStepDrop(s, b, r);
    case Retires(x) => SetStepRetire(s, x, r);
    case _ => assert forall x :: 0 <= x < |s.sets| ==> SetFollows(s.sets[x], r.sets[x]) by { SetsSame(s, r); }
  }

  lemma SetsSame(s: State, r: State)
    requires r.sets == s.sets && forall x :: 0 <= x < |s.sets| ==> BitsOk(s.sets[x])
    ensures forall x :: 0 <= x < |s.sets| ==> SetFollows(s.sets[x], r.sets[x])
  {
  }

  lemma SetBits(s: State)
    requires Inv(s)
    ensures forall x :: 0 <= x < |s.sets| ==> BitsOk(s.sets[x])
  {
    hide BlocksOk, ThreadsOk, HeldsOk, InTurn, WorkerOk, CountsOk, SyncsOk, BitsOk, SetsOk;
    forall x | 0 <= x < |s.sets|
      ensures BitsOk(s.sets[x])
    {
      SetAt(s, x);
      BitsOf(x, s.sets[x], s.blocks);
    }
  }

  lemma BitsOf(x: Sid, st: BlockSet, blocks: seq<Block>)
    requires SetOk(x, st, blocks)
    ensures BitsOk(st)
  {
    hide BitsOk;
  }

  lemma SetStepDirtier(s: State, t: Tid, r: State)
    requires Inv(s) && Typed(s) && t < |s.threads| && DirtierStep(s, t) == Some(r)
    requires forall x :: 0 <= x < |s.sets| ==> BitsOk(s.sets[x])
    ensures SetsFollow(s, r)
  {
    hide Inv, Typed, DirtierStep;
    DirtierLocal(s, t, r);
    if s.threads[t].Commit? {
      CommitIsFirst(s, t, s.threads[t]);
    }
  }

  lemma CommitIsFirst(s: State, t: Tid, pc: Pc)
    requires Inv(s) && Typed(s) && t < |s.threads| && pc == s.threads[t] && pc.Commit?
    ensures pc.first < |s.sets| && (!s.sets[pc.first].dirty ==> s.sets[pc.first].stage == Open)
  {
    hide BlocksOk, ThreadsOk, HeldsOk, InTurn, WorkerOk, CountsOk, SyncsOk, SetsOk, Typed, Front;
    ThreadAt(s, t);
    NotEmpty(s, t, pc.bs, |pc.bs|, pc.first);
    SetBits(s);
  }

  lemma SetStepWork(s: State, r: State)
    requires Inv(s) && Typed(s) && WorkerStep(s) == Some(r)
    requires forall x :: 0 <= x < |s.sets| ==> BitsOk(s.sets[x])
    ensures SetsFollow(s, r)
  {
    hide BlocksOk, ThreadsOk, HeldsOk, CountsOk, SyncsOk, SetsOk, Reverse, InTurn;
    if s.list != [] {
      FirstPending(s);
    }
  }

  lemma SetStepDrop(s: State, b: Bid, r: State)
    requires Inv(s) && Typed(s) && b < |s.blocks| && Drop(s, b) == Some(r)
    requires forall x :: 0 <= x < |s.sets| ==> BitsOk(s.sets[x])
    ensures SetsFollow(s, r)
  {
    hide BlocksOk, ThreadsOk, HeldsOk, CountsOk, SyncsOk, SetsOk, InTurn, WorkerOk;
    InFlight(s, b);
  }

  lemma SetStepRetire(s: State, x: Sid, r: State)
    requires Typed(s) && x < |s.sets| && Retire(s, x) == Some(r)
    requires forall y :: 0 <= y < |s.sets| ==> BitsOk(s.sets[y])
    ensures SetsFollow(s, r)
  {
  }

  // ---- sync ----

  /** When sync's condition holds for n, every set numbered up to n has had all its blocks written:
      whatever it still lists is only waiting for the last completion to let it go. */
  lemma SyncConditionMeans(s: State, n: nat, x: Sid, b: Bid)
    requires Reachable(s) && s.writebackSeq >= n && s.nrWriteback == 0
    requires x < |s.sets| && 0 < s.sets[x].dirtySeq <= n && b in s.sets[x].list
    ensures b < |s.blocks| && (s.blocks[b].io == Counted || s.blocks[b].io == Finished)
    ensures s.sets[x].stage == Flying || s.sets[x].stage == Finishing || s.sets[x].stage == Releasing
  {
    hide Reachable, Inv;
    ReachableHolds(s);
    SyncedBlock(s, n, x, b);
  }

  lemma SyncedBlock(s: State, n: nat, x: Sid, b: Bid)
    requires Inv(s) && s.writebackSeq >= n && s.nrWriteback == 0
    requires x < |s.sets| && 0 < s.sets[x].dirtySeq <= n && b in s.sets[x].list
    ensures b < |s.blocks| && (s.blocks[b].io == Counted || s.blocks[b].io == Finished)
    ensures s.sets[x].stage == Flying || s.sets[x].stage == Finishing || s.sets[x].stage == Releasing
  {
    hide BlocksOk, ThreadsOk, HeldsOk, SyncsOk, SetsOk, SetOk;
    hide CountDirty, CountWriteback, CountCounted, SumSubmitted;
    SetAt(s, x);
    Member(x, s.sets[x], s.blocks, b);
    SetBits(s);
    if s.sets[x].stage == Pending || s.sets[x].stage == Taken || s.sets[x].stage == Charged {
      QueuedIsLater(s, x);
    }
    NoneInWriteback(s.blocks, b);
  }

  /** A queued set, or one the worker has only begun to take, comes after writeback_seq. */
  lemma QueuedIsLater(s: State, x: Sid)
    requires InTurn(s) && WorkerOk(s) && x < |s.sets|
    requires s.sets[x].stage == Pending || s.sets[x].stage == Taken || s.sets[x].stage == Charged
    ensures s.sets[x].dirtySeq > s.writebackSeq
  {
    hide Reverse;
    if s.sets[x].stage == Pending {
      var j :| 0 <= j < |Queue(s)| && Queue(s)[j] == x;
    }
  }

  lemma {:induction false} NoneInWriteback(blocks: seq<Block>, b: Bid)
    requires b < |blocks| && CountWriteback(blocks) == 0
    ensures !InWriteback(blocks[b].io)
  {
    if b < |blocks| - 1 {
      NoneInWriteback(blocks[..|blocks| - 1], b);
    }
  }

  // ---- numbers are unique ----

  /** No two sets share a number, none is above dirty_seq, and the set the worker has in hand carries
      the next number after writeback_seq. */
  predicate NumbersOk(s: State) {
    && (forall x :: 0 <= x < |s.sets| ==> s.sets[x].dirtySeq <= s.dirtySeq)
    && (forall x, y :: 0 <= x < y < |s.sets| && s.sets[x].dirtySeq > 0 ==> s.sets[x].dirtySeq != s.sets[y].dirtySeq)
    && (Busy(s.worker) ==> s.worker.claim < |s.sets| && s.sets[s.worker.claim].dirtySeq == s.writebackSeq + 1)
  }

  lemma DirtierNumbers(s: State, t: Tid, r: State)
    requires Inv(s) && Typed(s) && t < |s.threads| && DirtierStep(s, t) == Some(r) && NumbersOk(s)
    ensures NumbersOk(r)
  {
    hide Inv, Typed, DirtierStep;
    DirtierLocal(s, t, r);
    SetBits(s);
    if s.threads[t].Commit? {
      CommitIsFirst(s, t, s.threads[t]);
    }
  }

  lemma WorkKeepsNumbers(s: State, r: State)
    requires Typed(s) && WorkerStep(s) == Some(r)
    ensures |r.sets| == |s.sets| && r.dirtySeq == s.dirtySeq
    ensures forall x :: 0 <= x < |s.sets| ==> r.sets[x].dirtySeq == s.sets[x].dirtySeq
  {
    match s.worker
    case Resting =>
    case Picking => assert s.list == [] || r.sets == s.sets[s.list[0] := r.sets[s.list[0]]];
    case Waiting(_) =>
    case Advancing(_) =>
    case Submitting(_, _) =>
    case _ => assert r.sets == s.sets || r.sets == s.sets[s.worker.claim := r.sets[s.worker.claim]];
  }

  lemma WorkKeepsClaim(s: State, r: State)
    requires Typed(s) && WorkerStep(s) == Some(r)
    ensures Busy(r.worker) ==> r.writebackSeq == s.writebackSeq
    ensures Busy(r.worker) && !Busy(s.worker) ==> s.worker == Testing(r.worker.claim)
    ensures Busy(r.worker) && Busy(s.worker) ==> r.worker.claim == s.worker.claim
  {
  }

  lemma WorkNumbers(s: State, r: State)
    requires Inv(s) && Typed(s) && WorkerStep(s) == Some(r) && NumbersOk(s)
    ensures NumbersOk(r)
  {
    hide SetsOk, BlocksOk, ThreadsOk, HeldsOk, CountsOk, SyncsOk, InTurn, WorkerStep, Typed;
    WorkKeepsNumbers(s, r);
    WorkKeepsClaim(s, r);
    if s.worker.Testing? {
      FirstPending(s);
    }
  }

  lemma NumbersFrame(s: State, r: State)
    requires NumbersOk(s) && |r.sets| == |s.sets| && r.worker == s.worker
    requires r.dirtySeq == s.dirtySeq && r.writebackSeq == s.writebackSeq
    requires forall x :: 0 <= x < |s.sets| ==> r.sets[x].dirtySeq == s.sets[x].dirtySeq
    ensures NumbersOk(r)
  {
  }

  lemma DropNumbers(s: State, b: Bid, r: State)
    requires Typed(s) && b < |s.blocks| && (IoDone(s, b) == Some(r) || Drop(s, b) == Some(r)) && NumbersOk(s)
    ensures NumbersOk(r)
  {
    hide NumbersOk;
    NumbersFrame(s, r);
  }

  lemma RetireNumbers(s: State, x: Sid, r: State)
    requires Typed(s) && x < |s.sets| && Retire(s, x) == Some(r) && NumbersOk(s)
    ensures NumbersOk(r)
  {
    hide NumbersOk;
    NumbersFrame(s, r);
  }

  lemma StepNumbers(s: State, a: Action, r: State)
    requires Inv(s) && Typed(s) && Next(s, a) == Some(r) && NumbersOk(s)
    ensures NumbersOk(r)
  {
    hide Inv, DirtierStep, WorkerStep, IoDone, Drop, Retire;
    match a
    case Dirtier(t) => DirtierNumbers(s, t, r);
    case Work => WorkNumbers(s, r);
    case Completes(b) => DropNumbers(s, b, r);
    case Drops(b) => DropNumbers(s, b, r);
    case Retires(x) => RetireNumbers(s, x, r);
    case _ => assert r.sets == s.sets && (Busy(r.worker) ==> r.worker == s.worker);
  }

  lemma {:induction false} RunNumbers(s: State, acts: seq<Action>, r: State)
    requires Inv(s) && Exec(s, acts) == Some(r) && NumbersOk(s)
    ensures NumbersOk(r)
    decreases |acts|
  {
    hide Inv, Typed, Next, NumbersOk;
    if acts != [] {
      InvTyped(s);
      var m := Next(s, acts[0]).value;
      StepNumbers(s, acts[0], m);
      StepKeeps(s, acts[0], m);
      RunNumbers(m, acts[1..], r);
    }
  }

  lemma ReachableNumbers(s: State)
    requires Reachable(s)
    ensures NumbersOk(s)
  {
    hide Inv, Typed, Exec;
    var s0: State, acts: seq<Action> :| Initial(s0) && Exec(s0, acts) == Some(s);
    InitialHolds(s0);
    RunNumbers(s0, acts, s);
  }

  /** It may list some. When a completion takes nr_writeback to zero, its set still lists the block;
      sync's condition holds for that set's number exactly unless the worker is still at the set. */
  lemma SyncConditionComesEarly(s: State, b: Bid, r: State)
    requires Reachable(s) && Typed(s) && b < |s.blocks| && IoDone(s, b) == Some(r) && s.nrWriteback == 1
    ensures r.blocks[b].owner.Some? && r.blocks[b].owner.value < |r.sets|
    ensures var x := r.blocks[b].owner.value;
            && b in r.sets[x].list && r.sets[x].dirtySeq > 0
            && (r.writebackSeq >= r.sets[x].dirtySeq && r.nrWriteback == 0
                <==> !(Busy(r.worker) && r.worker.claim == x))
  {
    hide Reachable, SetsOk, BlocksOk, ThreadsOk, HeldsOk, SyncsOk, InTurn, CountsOk, Typed;
    ReachableHolds(s);
    ReachableNumbers(s);
    SetBits(s);
    InFlight(s, b);
  }

  /** The blocks that sets numbered up to n still list when the condition holds for n are exactly
      those whose completion has dropped nr_writeback and whose set has not let them go. */
  lemma StillListedIff(s: State, n: nat, b: Bid)
    requires Reachable(s) && s.writebackSeq >= n && s.nrWriteback == 0 && b < |s.blocks|
    ensures Numbered(s, b, n) <==>
            && (s.blocks[b].io == Counted || s.blocks[b].io == Finished)
            && s.blocks[b].owner.Some? && s.blocks[b].owner.value < |s.sets|
            && s.sets[s.blocks[b].owner.value].dirtySeq <= n
  {
    hide Reachable, SetsOk, ThreadsOk, HeldsOk, SyncsOk, InTurn, CountsOk, SetOk, WorkerOk;
    ReachableHolds(s);
    SetBits(s);
    BlockAt(s, b);
    if s.blocks[b].owner.Some? {
      var x := s.blocks[b].owner.value;
      SetAt(s, x);
      Member(x, s.sets[x], s.blocks, b);
      if 0 < s.sets[x].dirtySeq <= n {
        SyncedBlock(s, n, x, b);
      }
    }
  }

  /** The block is in a set that carries a number up to n. */
  predicate Numbered(s: State, b: Bid, n: nat) {
    && b < |s.blocks| && s.blocks[b].owner.Some? && s.blocks[b].owner.value < |s.sets|
    && 0 < s.sets[s.blocks[b].owner.value].dirtySeq <= n
  }

  /** The block is still unwritten since writes was w, or it has been written since. */
  predicate Covered(s: State, b: Bid, w: nat) {
    && b < |s.blocks|
    && (s.blocks[b].writes > w
        || (s.blocks[b].writes == w && s.blocks[b].dirty && Unwritten(s.blocks[b]) && s.blocks[b].owner.Some?
            && s.blocks[b].owner.value < |s.sets| && s.sets[s.blocks[b].owner.value].stage != Open))
  }

  lemma CoveredStep(s: State, a: Action, r: State, b: Bid, w: nat)
    requires Inv(s) && Typed(s) && Next(s, a) == Some(r) && Covered(s, b, w)
    ensures Covered(r, b, w)
  {
    hide SetsOk, BlocksOk, ThreadsOk, HeldsOk, SyncsOk, InTurn, WorkerOk, CountsOk, Typed, Next, SetOk;
    SetStep(s, a, r);
    BlocksGrow(s, a, r);
    if s.blocks[b].writes <= w {
      var x := s.blocks[b].owner.value;
      BlockAt(s, b);
      SetAt(s, x);
      Member(x, s.sets[x], s.blocks, b);
      BlockStep(s, a, r, b, x);
      StepKeeps(s, a, r);
      OwnerInRange(r, b);
      TargetNotOpen(s, a, r, x);
    }
  }

  /** A set with a place in the order is merged only into one with a place. */
  lemma TargetNotOpen(s: State, a: Action, r: State, x: Sid)
    requires Inv(s) && Typed(s) && Next(s, a) == Some(r) && x < |s.sets| && s.sets[x].stage != Open
    requires SetsFollow(s, r) && Target(s, a, x) < |r.sets|
    ensures r.sets[Target(s, a, x)].stage != Open
  {
    hide SetsOk, BlocksOk, ThreadsOk, HeldsOk, SyncsOk, InTurn, WorkerOk, CountsOk, Typed, Next, SetOk;
    var y := Target(s, a, x);
    if y != x {
      var pc := s.threads[a.t];
      InvTypedThread(s, a.t);
      assert Holds(pc)[0] == pc.first && Holds(pc)[1] == pc.small;
      MergeFacts(s, a.t, pc, x, y);
    }
    assert SetFollows(s.sets[y], r.sets[y]);
  }

  lemma InvTypedThread(s: State, t: Tid)
    requires Inv(s) && t < |s.threads|
    ensures PcTyped(s.threads[t], |s.blocks|, |s.sets|)
  {
    hide SetsOk, BlocksOk, HeldsOk, SyncsOk, InTurn, WorkerOk, CountsOk, ThreadsOk;
    ThreadTyped(s, t);
  }

  /** Blocks are never forgotten, and their writes count the completions. */
  predicate Grown(s: State, a: Action, r: State) {
    && |r.blocks| == |s.blocks|
    && forall b :: 0 <= b < |s.blocks| ==>
         r.blocks[b].writes == s.blocks[b].writes + One(a == Completes(b))
  }

  lemma BlocksGrow(s: State, a: Action, r: State)
    requires Typed(s) && Next(s, a) == Some(r)
    ensures Grown(s, a, r)
  {
    hide DirtierStep;
    match a
    case Dirtier(t) => DirtierLocal(s, t, r);
    case Work => assert Grown(s, a, r);
    case Retires(x) => assert Grown(s, a, r);
    case _ =>
  }

  lemma {:induction false} CoveredRun(s: State, acts: seq<Action>, r: State, b: Bid, w: nat)
    requires Inv(s) && Exec(s, acts) == Some(r) && Covered(s, b, w)
    ensures Covered(r, b, w)
    decreases |acts|
  {
    hide Inv, Typed, Next, Covered;
    if acts != [] {
      InvTyped(s);
      var m := Next(s, acts[0]).value;
      CoveredStep(s, acts[0], m, b, w);
      StepKeeps(s, acts[0], m);
      CoveredRun(m, acts[1..], r, b, w);
    }
  }

  /** The thread's sync, or any later one, asks for at least n. */
  predicate Asks(s: State, t: Tid, n: nat) {
    && t < |s.threads| && s.dirtySeq >= n
    && (s.threads[t].Syncing? || s.threads[t].SeenSeq? ==> s.threads[t].goal >= n)
  }

  lemma WorkMoves(s: State, r: State)
    requires Typed(s) && WorkerStep(s) == Some(r)
    ensures r.threads == s.threads
  {
  }

  lemma AsksStep(s: State, a: Action, r: State, t: Tid, n: nat)
    requires Inv(s) && Typed(s) && Next(s, a) == Some(r) && Asks(s, t, n)
    ensures Asks(r, t, n)
  {
    hide Inv, DirtierStep, WorkerStep, SetFollows;
    SetStep(s, a, r);
    if a.Dirtier? {
      DirtierLocal(s, a.t, r);
    } else if a.Work? {
      WorkMoves(s, r);
    }
  }

  lemma {:induction false} AsksRun(s: State, acts: seq<Action>, r: State, t: Tid, n: nat)
    requires Inv(s) && Exec(s, acts) == Some(r) && Asks(s, t, n)
    ensures Asks(r, t, n)
    decreases |acts|
  {
    hide Inv, Typed, Next, Asks;
    if acts != [] {
      InvTyped(s);
      var m := Next(s, acts[0]).value;
      AsksStep(s, acts[0], m, t, n);
      StepKeeps(s, acts[0], m);
      AsksRun(m, acts[1..], r, t, n);
    }
  }

  /** The thread's next step returns from sync without error. */
  predicate Returns(s: State, t: Tid) {
    t < |s.threads| && SyncStep(s, t).Some? && SyncStep(s, t).value.threads[t] == Outside
  }

  /** Then the thread has seen its number and finds nothing in writeback. */
  lemma ReturnsIdle(s: State, t: Tid)
    requires Returns(s, t)
    ensures s.threads[t].SeenSeq? && s.nrWriteback == 0
  {
  }

  /** A sync that starts in s and returns without error after r: every block that was dirty when it
      started, in a set with a place in the order, has been written in between, or its last write
      had already completed, or a merge has moved it to a set dirtied after the sync began. */
  lemma SyncReturnsAfterWriting(s: State, t: Tid, acts: seq<Action>, r: State, b: Bid)
    requires Reachable(s) && t < |s.threads| && s.threads[t] == Outside
    requires acts != [] && acts[0] == Sync(t) && Exec(s, acts) == Some(r)
    requires Returns(r, t)
    requires b < |s.blocks| && s.blocks[b].dirty && s.blocks[b].owner.Some?
    requires s.blocks[b].owner.value < |s.sets| && s.sets[s.blocks[b].owner.value].stage != Open
    ensures b < |r.blocks|
    ensures || r.blocks[b].writes > s.blocks[b].writes
            || !Unwritten(s.blocks[b])
            || (r.blocks[b].dirty && r.blocks[b].owner.Some? && r.blocks[b].owner.value < |r.sets|
                && r.sets[r.blocks[b].owner.value].dirtySeq > s.dirtySeq)
  {
    hide Reachable, Inv, Typed, Exec;
    ReachableHolds(s);
    var w := s.blocks[b].writes;
    ReturnsIdle(r, t);
    RunKeeps(s, acts, r);
    GoalReached(s, t, acts, r);
    if Unwritten(s.blocks[b]) {
      CoveredRun(s, acts, r, b, w);
      if r.blocks[b].writes == w {
        var x := r.blocks[b].owner.value;
        NotYet(r, s.dirtySeq, x, b);
      }
    } else {
      LengthStays(s, acts, r);
    }
  }

  lemma GoalReached(s: State, t: Tid, acts: seq<Action>, r: State)
    requires Inv(s) && t < |s.threads| && s.threads[t] == Outside
    requires acts != [] && acts[0] == Sync(t) && Exec(s, acts) == Some(r)
    requires Inv(r) && t < |r.threads| && r.threads[t].SeenSeq?
    ensures r.writebackSeq >= s.dirtySeq
  {
    hide Inv, Typed;
    InvTyped(s);
    var m := Next(s, acts[0]).value;
    StepKeeps(s, acts[0], m);
    AsksRun(m, acts[1..], r, t, s.dirtySeq);
    SyncsOf(r);
  }

  lemma NotYet(r: State, n: nat, x: Sid, b: Bid)
    requires Inv(r) && r.writebackSeq >= n && r.nrWriteback == 0 && x < |r.sets| && r.sets[x].stage != Open
    requires b < |r.blocks| && r.blocks[b].owner == Some(x) && Unwritten(r.blocks[b])
    ensures r.sets[x].dirtySeq > n
  {
    hide SetsOk, BlocksOk, ThreadsOk, HeldsOk, SyncsOk, InTurn, WorkerOk, CountsOk;
    SetBits(r);
    Listed(r, b, x);
    if r.sets[x].dirtySeq <= n {
      assert 0 < r.sets[x].dirtySeq;
      SyncedBlock(r, n, x, b);
    }
  }

  lemma {:induction false} LengthStays(s: State, acts: seq<Action>, r: State)
    requires Inv(s) && Exec(s, acts) == Some(r)
    ensures |r.blocks| == |s.blocks|
    decreases |acts|
  {
    hide Inv, Typed, Next;
    if acts != [] {
      InvTyped(s);
      var m := Next(s, acts[0]).value;
      BlocksGrow(s, acts[0], m);
      StepKeeps(s, acts[0], m);
      LengthStays(m, acts[1..], r);
    }
  }

  // ---- the blocks a sync misses ----

  lemma {:induction false} CompletionsCount(s: State, acts: seq<Action>, r: State, b: Bid)
    requires Exec(s, acts) == Some(r) && b < |s.blocks|
    ensures b < |r.blocks| && r.blocks[b].writes >= s.blocks[b].writes
    ensures r.blocks[b].writes == s.blocks[b].writes <==> Completes(b) !in acts
    decreases |acts|
  {
    hide Typed, Next;
    if acts != [] {
      var m := Next(s, acts[0]).value;
      BlocksGrow(s, acts[0], m);
      CompletionsCount(m, acts[1..], r, b);
      assert acts == [acts[0]] + acts[1..];
    }
  }

  /** This step is a merge that takes the block from a set numbered up to n to one numbered later. */
  predicate MergesPast(s: State, a: Action, r: State, b: Bid, n: nat) {
    && a.Dirtier? && a.t < |s.threads| && s.threads[a.t].Both?
    && Numbered(s, b, n) && b < |r.blocks| && r.blocks[b].owner.Some? && r.blocks[b].owner != s.blocks[b].owner
    && r.blocks[b].owner.value < |r.sets| && r.sets[r.blocks[b].owner.value].dirtySeq > n
  }

  /** Some step of the run is such a merge. */
  predicate MergedPast(s: State, acts: seq<Action>, b: Bid, n: nat)
    decreases |acts|
  {
    && acts != [] && Typed(s) && Next(s, acts[0]).Some?
    && (MergesPast(s, acts[0], Next(s, acts[0]).value, b, n)
        || MergedPast(Next(s, acts[0]).value, acts[1..], b, n))
  }

  lemma NumberStep(s: State, a: Action, m: State, b: Bid, n: nat, w: nat)
    requires b < |s.blocks| && b < |m.blocks| && s.blocks[b].writes == w == m.blocks[b].writes
    requires Covered(s, b, w) && Numbered(s, b, n) && Covered(m, b, w)
    requires Inv(s) && Typed(s) && Next(s, a) == Some(m)
    ensures Numbered(m, b, n) || MergesPast(s, a, m, b, n)
  {
    hide SetsOk, BlocksOk, ThreadsOk, HeldsOk, SyncsOk, InTurn, WorkerOk, CountsOk, Typed, Next, SetOk;
    var x := s.blocks[b].owner.value;
    BlockAt(s, b);
    SetAt(s, x);
    Member(x, s.sets[x], s.blocks, b);
    BlockStep(s, a, m, b, x);
    SetStep(s, a, m);
    assert SetFollows(s.sets[x], m.sets[x]);
    StepKeeps(s, a, m);
    SetBits(m);
  }

  lemma {:induction false} CrossingIsMerge(s: State, acts: seq<Action>, r: State, b: Bid, n: nat)
    requires Inv(s) && Exec(s, acts) == Some(r) && b < |s.blocks|
    requires Covered(s, b, s.blocks[b].writes) && Numbered(s, b, n)
    requires b < |r.blocks| && r.blocks[b].writes == s.blocks[b].writes && !Numbered(r, b, n)
    ensures MergedPast(s, acts, b, n)
    decreases |acts|
  {
    hide Inv, Typed, Next, Covered, Numbered, MergesPast;
    assert acts != [];
    InvTyped(s);
    var m := Next(s, acts[0]).value;
    var w := s.blocks[b].writes;
    CoveredStep(s, acts[0], m, b, w);
    BlocksGrow(s, acts[0], m);
    CompletionsCount(m, acts[1..], r, b);
    StepKeeps(s, acts[0], m);
    NumberStep(s, acts[0], m, b, n, w);
    if Numbered(m, b, n) {
      CrossingIsMerge(m, acts[1..], r, b, n);
    }
  }

  // ---- where the merges of a run lead ----

  /** The set that the merges of the run make of set x. */
  function Home(s: State, acts: seq<Action>, x: Sid): Sid
    decreases |acts|
  {
    if acts == [] || !Typed(s) || Next(s, acts[0]).None? then x
    else Home(Next(s, acts[0]).value, acts[1..], Target(s, acts[0], x))
  }

  /** Every block of the set was submitted. */
  predicate Late(stage: Stage) {
    stage == Flying || stage == Finishing || stage == Releasing || stage == Done
  }

  /** The block is in set y unwritten, or set y is the one that wrote it. */
  predicate HomeOk(s: State, b: Bid, w: nat, y: Sid) {
    && b < |s.blocks| && y < |s.sets| && s.blocks[b].writes >= w
    && (s.blocks[b].writes == w ==>
          s.blocks[b].dirty && Unwritten(s.blocks[b]) && s.blocks[b].owner == Some(y) && s.sets[y].stage != Open)
    && (s.blocks[b].writes > w ==> Late(s.sets[y].stage))
  }

  lemma LateDirtier(s: State, t: Tid, r: State, y: Sid)
    requires Inv(s) && Typed(s) && t < |s.threads| && DirtierStep(s, t) == Some(r)
    requires y < |s.sets| && Late(s.sets[y].stage)
    ensures y < |r.sets| && Late(r.sets[y].stage) && Target(s, Dirtier(t), y) == y
  {
    hide Inv, Typed, DirtierStep;
    DirtierLocal(s, t, r);
    var pc := s.threads[t];
    if pc.Commit? {
      CommitIsFirst(s, t, pc);
    }
    if pc.Both? {
      HeldIsCalm(s, t, pc);
    }
  }

  /** A set that is about to be merged is not being written. */
  lemma HeldIsCalm(s: State, t: Tid, pc: Pc)
    requires Inv(s) && t < |s.threads| && pc == s.threads[t] && pc.Both?
    ensures pc.first < |s.sets| && pc.small < |s.sets|
    ensures Calm(s.sets[pc.first].stage) && Calm(s.sets[pc.small].stage)
  {
    hide SetsOk, BlocksOk, HeldsOk, InTurn, WorkerOk, CountsOk, SyncsOk, ThreadsOk, Shaped;
    ThreadAt(s, t);
  }

  lemma LateWork(s: State, r: State, y: Sid)
    requires Inv(s) && Typed(s) && WorkerStep(s) == Some(r) && y < |s.sets| && Late(s.sets[y].stage)
    ensures y < |r.sets| && Late(r.sets[y].stage)
  {
    hide SetsOk, BlocksOk, ThreadsOk, HeldsOk, CountsOk, SyncsOk, InTurn;
    if s.list != [] {
      FirstPending(s);
    }
  }

  lemma LateDrop(s: State, b: Bid, r: State, y: Sid)
    requires Inv(s) && Typed(s) && b < |s.blocks| && Drop(s, b) == Some(r) && y < |s.sets| && Late(s.sets[y].stage)
    ensures y < |r.sets| && Late(r.sets[y].stage)
  {
  }

  lemma LateStays(s: State, a: Action, r: State, y: Sid)
    requires Inv(s) && Typed(s) && Next(s, a) == Some(r) && y < |s.sets| && Late(s.sets[y].stage)
    ensures y < |r.sets| && Late(r.sets[y].stage) && Target(s, a, y) == y
  {
    hide Inv, Typed, DirtierStep, WorkerStep, Drop;
    match a
    case Dirtier(t) => LateDirtier(s, t, r, y);
    case Work => LateWork(s, r, y);
    case Drops(b) => LateDrop(s, b, r, y);
    case _ =>
  }

  lemma HomeStep(s: State, a: Action, r: State, b: Bid, w: nat, y: Sid)
    requires Inv(s) && Typed(s) && Next(s, a) == Some(r) && HomeOk(s, b, w, y)
    ensures HomeOk(r, b, w, Target(s, a, y))
  {
    hide Inv, Typed, Next, Target;
    BlocksGrow(s, a, r);
    if s.blocks[b].writes > w {
      LateStays(s, a, r, y);
    } else if a == Completes(b) {
      HomeCompletes(s, r, b, y);
    } else {
      HomeMoves(s, a, r, b, w, y);
    }
  }

  lemma HomeCompletes(s: State, r: State, b: Bid, y: Sid)
    requires Inv(s) && Typed(s) && Next(s, Completes(b)) == Some(r) && b < |s.blocks| && s.blocks[b].owner == Some(y)
    ensures y < |r.sets| && Late(r.sets[y].stage) && Target(s, Completes(b), y) == y
  {
    hide SetsOk, BlocksOk, ThreadsOk, HeldsOk, InTurn, WorkerOk, CountsOk, SyncsOk, SetOk;
    InFlight(s, b);
  }

  lemma HomeMoves(s: State, a: Action, r: State, b: Bid, w: nat, y: Sid)
    requires Inv(s) && Typed(s) && Next(s, a) == Some(r) && HomeOk(s, b, w, y) && s.blocks[b].writes == w
    requires b < |r.blocks| && r.blocks[b].writes == w
    ensures HomeOk(r, b, w, Target(s, a, y))
  {
    hide Inv, Typed, Next, Target;
    CoveredStep(s, a, r, b, w);
    HomeFollows(s, a, r, b, y);
  }

  lemma HomeFollows(s: State, a: Action, r: State, b: Bid, y: Sid)
    requires Inv(s) && Typed(s) && Next(s, a) == Some(r) && b < |s.blocks| && b < |r.blocks|
    requires s.blocks[b].dirty && Unwritten(s.blocks[b]) && s.blocks[b].owner == Some(y)
    requires r.blocks[b].dirty && Unwritten(r.blocks[b]) && r.blocks[b].owner.Some?
    requires r.blocks[b].owner.value < |r.sets| && r.sets[r.blocks[b].owner.value].stage != Open
    ensures r.blocks[b].owner == Some(Target(s, a, y))
  {
    hide SetsOk, BlocksOk, ThreadsOk, HeldsOk, SyncsOk, InTurn, WorkerOk, CountsOk, Typed, Next, SetOk, Target;
    BlockAt(s, b);
    SetAt(s, y);
    Member(y, s.sets[y], s.blocks, b);
    BlockStep(s, a, r, b, y);
  }

  lemma {:induction false} HomeRun(s: State, acts: seq<Action>, r: State, b: Bid, w: nat, y: Sid)
    requires Inv(s) && Exec(s, acts) == Some(r) && HomeOk(s, b, w, y)
    ensures HomeOk(r, b, w, Home(s, acts, y))
    decreases |acts|
  {
    hide Inv, Typed, Next, HomeOk, Target;
    if acts != [] {
      InvTyped(s);
      var m := Next(s, acts[0]).value;
      HomeStep(s, acts[0], m, b, w, y);
      StepKeeps(s, acts[0], m);
      HomeRun(m, acts[1..], r, b, w, Target(s, acts[0], y));
    }
  }

  /** With nothing in writeback an unwritten dirty block is in a set whose write has not begun. */
  lemma NotBegun(r: State, b: Bid, y: Sid)
    requires Inv(r) && r.nrWriteback == 0 && b < |r.blocks| && y < |r.sets|
    requires r.blocks[b].owner == Some(y) && Unwritten(r.blocks[b]) && r.sets[y].stage != Open
    ensures r.sets[y].stage == Pending || r.sets[y].stage == Taken
  {
    hide SetsOk, BlocksOk, ThreadsOk, HeldsOk, SyncsOk, InTurn, WorkerOk, SetOk;
    hide CountDirty, CountWriteback, CountCounted, SumSubmitted;
    SetBits(r);
    Listed(r, b, y);
    SetAt(r, y);
    Member(y, r.sets[y], r.blocks, b);
    NoneInWriteback(r.blocks, b);
  }

  /** A sync that starts in s and is about to return without error in r misses a block that was dirty
      and unwritten in a set with a place in the order exactly when the write of the set that merges
      made of that set has not begun; and then one of the merges took the block to a set dirtied after
      the sync began. */
  lemma SyncMissesIff(s: State, t: Tid, acts: seq<Action>, r: State, b: Bid)
    requires Reachable(s) && t < |s.threads| && s.threads[t] == Outside
    requires acts != [] && acts[0] == Sync(t) && Exec(s, acts) == Some(r)
    requires Returns(r, t)
    requires b < |s.blocks| && s.blocks[b].dirty && Unwritten(s.blocks[b]) && s.blocks[b].owner.Some?
    requires s.blocks[b].owner.value < |s.sets| && s.sets[s.blocks[b].owner.value].stage != Open
    ensures b < |r.blocks| && Home(s, acts, s.blocks[b].owner.value) < |r.sets|
    ensures var home := r.sets[Home(s, acts, s.blocks[b].owner.value)];
            r.blocks[b].writes == s.blocks[b].writes <==> home.stage == Pending || home.stage == Taken
    ensures r.blocks[b].writes == s.blocks[b].writes ==> MergedPast(s, acts, b, s.dirtySeq)
  {
    hide Reachable, Inv, Typed, Exec, MergedPast, Home;
    ReachableHolds(s);
    ReachableNumbers(s);
    var n, w := s.dirtySeq, s.blocks[b].writes;
    ReturnsIdle(r, t);
    CompletionsCount(s, acts, r, b);
    RunKeeps(s, acts, r);
    HomeRun(s, acts, r, b, w, s.blocks[b].owner.value);
    if r.blocks[b].writes == w {
      NotBegun(r, b, r.blocks[b].owner.value);
      GoalReached(s, t, acts, r);
      CoveredRun(s, acts, r, b, w);
      NotYet(r, n, r.blocks[b].owner.value, b);
      SetBits(s);
      CrossingIsMerge(s, acts, r, b, n);
    }
  }
}
