/** One call of dirty_begin from its start to its end, whatever it had to wait for in between
    (shared/block.c:852-973). */
module DirtyCalls {
  import opened Options
  import opened DirtySets
  import opened DirtyInvariant
  import opened DirtyFrames
  import opened DirtySteps
  import opened DirtyRuns
  import opened DirtySync

  // ---- the blocks that were asked for ----

  /** After no step of the run is the thread outside: it is still in the same call. */
  predicate Inside(s: State, acts: seq<Action>, t: Tid)
    decreases |acts|
  {
    acts != [] && Typed(s) && Next(s, acts[0]).Some? ==>
      var m := Next(s, acts[0]).value;
      t < |m.threads| && m.threads[t] != Outside && Inside(m, acts[1..], t)
  }

  /** The thread is inside dirty_begin, or past it and before dirty_end. */
  predicate InCall(pc: Pc) {
    !pc.Outside? && !pc.Syncing? && !pc.SeenSeq?
  }

  /** The call goes on for the same blocks. */
  predicate SameCall(pc: Pc, after: Pc) {
    after.Outside? || (InCall(after) && Asked(after) == Asked(pc))
  }

  lemma DirtierAsked(s: State, t: Tid, r: State)
    requires Typed(s) && t < |s.threads| && DirtierStep(s, t) == Some(r)
    ensures t < |r.threads| && SameCall(s.threads[t], r.threads[t])
  {
    hide Fetch, TryLock, TestWriteback, CheckOwner, Merge, DropSmall, MarkOne, CommitSet, End, ReleaseOne, Resume;
    hide SameCall;
    var pc := s.threads[t];
    match pc
    case Loop(_, _, _) => FetchAsked(s, t, pc, r);
    case Lock(_, _, _, _) => LockAsked(s, t, pc, r);
    case Locked(_, _, _, _) => LockAsked(s, t, pc, r);
    case Tested(_, _, _, _) => LockAsked(s, t, pc, r);
    case Both(_, _, _, _) => MergeAsked(s, t, pc, r);
    case Merged(_, _, _, _) => LockAsked(s, t, pc, r);
    case Mark(_, _, _) => MarkAsked(s, t, pc, r);
    case Commit(_, _) => MarkAsked(s, t, pc, r);
    case Modify(_, _) => EndAsked(s, t, pc, r);
    case Release(_, _, _) => EndAsked(s, t, pc, r);
    case Wait(_, _) => EndAsked(s, t, pc, r);
  }

  lemma FetchAsked(s: State, t: Tid, pc: Pc, r: State)
    requires Typed(s) && t < |s.threads| && pc == s.threads[t] && pc.Loop? && Fetch(s, t, pc) == Some(r)
    ensures t < |r.threads| && SameCall(pc, r.threads[t])
  {
  }

  lemma LockAsked(s: State, t: Tid, pc: Pc, r: State)
    requires Typed(s) && t < |s.threads| && pc == s.threads[t]
    requires || (pc.Lock? && TryLock(s, t, pc) == Some(r)) || (pc.Locked? && TestWriteback(s, t, pc) == Some(r))
             || (pc.Tested? && CheckOwner(s, t, pc) == Some(r)) || (pc.Merged? && DropSmall(s, t, pc) == Some(r))
    ensures t < |r.threads| && SameCall(pc, r.threads[t])
  {
  }

  lemma MergeAsked(s: State, t: Tid, pc: Pc, r: State)
    requires Typed(s) && t < |s.threads| && pc == s.threads[t] && pc.Both? && Merge(s, t, pc) == Some(r)
    ensures t < |r.threads| && SameCall(pc, r.threads[t])
  {
    hide Splice, Swaps;
  }

  lemma MarkAsked(s: State, t: Tid, pc: Pc, r: State)
    requires Typed(s) && t < |s.threads| && pc == s.threads[t]
    requires (pc.Mark? && MarkOne(s, t, pc) == Some(r)) || (pc.Commit? && CommitSet(s, t, pc) == Some(r))
    ensures t < |r.threads| && SameCall(pc, r.threads[t])
  {
  }

  lemma EndAsked(s: State, t: Tid, pc: Pc, r: State)
    requires Typed(s) && t < |s.threads| && pc == s.threads[t]
    requires || (pc.Modify? && End(s, t, pc) == Some(r)) || (pc.Release? && ReleaseOne(s, t, pc) == Some(r))
             || (pc.Wait? && Resume(s, t, pc) == Some(r))
    ensures t < |r.threads| && SameCall(pc, r.threads[t])
  {
  }

  lemma AskedStays(s: State, a: Action, r: State, t: Tid)
    requires Typed(s) && Next(s, a) == Some(r) && t < |s.threads| && InCall(s.threads[t])
    requires t < |r.threads| && r.threads[t] != Outside
    ensures InCall(r.threads[t]) && Asked(r.threads[t]) == Asked(s.threads[t])
    ensures a != Dirtier(t) ==> r.threads[t] == s.threads[t]
  {
    hide Typed, DirtierStep, WorkerStep, IoDone, Drop, Retire;
    match a
    case Dirtier(u) =>
      if u == t {
        DirtierAsked(s, t, r);
      } else {
        DirtierLocal(s, u, r);
      }
    case Work => WorkMoves(s, r);
    case Completes(_) => OthersStay(s, a, r);
    case Drops(_) => OthersStay(s, a, r);
    case Retires(_) => OthersStay(s, a, r);
    case _ =>
  }

  lemma OthersStay(s: State, a: Action, r: State)
    requires Typed(s) && Next(s, a) == Some(r) && (a.Completes? || a.Drops? || a.Retires?)
    ensures r.threads == s.threads
  {
  }

  lemma {:induction false} AskedRun(s: State, acts: seq<Action>, r: State, t: Tid)
    requires Inv(s) && Exec(s, acts) == Some(r) && Inside(s, acts, t) && t < |s.threads| && InCall(s.threads[t])
    ensures t < |r.threads| && InCall(r.threads[t]) && Asked(r.threads[t]) == Asked(s.threads[t])
    decreases |acts|
  {
    hide Inv, Typed, Next, InCall, Asked;
    if acts != [] {
      InvTyped(s);
      var m := Next(s, acts[0]).value;
      AskedStays(s, acts[0], m, t);
      StepKeeps(s, acts[0], m);
      AskedRun(m, acts[1..], r, t);
    }
  }

  /** However often a call of dirty_begin had to back off, wait and start over: when it has succeeded,
      every block it was called for is dirty and in the one set that the thread holds, which is queued
      and not being written. */
  lemma BeginDirtiesAll(s: State, t: Tid, want: seq<Bid>, m: State, acts: seq<Action>, r: State, j: nat)
    requires Reachable(s) && Typed(s) && Next(s, Begin(t, want)) == Some(m)
    requires Exec(m, acts) == Some(r) && Inside(m, acts, t) && t < |r.threads| && r.threads[t].Modify?
    requires j < |want|
    ensures s.nrDirty < 1024
    ensures var x, b := r.threads[t].first, want[j];
            && b < |r.blocks| && x < |r.sets|
            && r.blocks[b].owner == Some(x) && b in r.sets[x].list && r.blocks[b].dirty && r.blocks[b].io == Idle
            && r.sets[x].dirtying == Some(t) && r.sets[x].dirty && x in Queue(r)
  {
    hide Reachable, Inv, Exec, Inside, Queue;
    ReachableHolds(s);
    StepKeeps(s, Begin(t, want), m);
    AskedRun(m, acts, r, t);
    RunKeeps(m, acts, r);
    HeldTogether(r, t, j);
  }

  // ---- what a call waits for ----

  /** The reason for the wait is gone. */
  predicate Over(s: State, reason: After) {
    match reason
    case ForDirtying(x) => x < |s.sets| && s.sets[x].dirtying.None?
    case ForWriteback(x) => x < |s.sets| && !s.sets[x].writeback
    case ForSync(n) => s.writebackSeq >= n && s.nrWriteback == 0
    case ForIdle(n) => s.writebackSeq >= n && s.nrWriteback == 0
    case Again => true
  }

  /** In some state of the run, the first and the last included. */
  predicate WasOver(s: State, acts: seq<Action>, reason: After)
    decreases |acts|
  {
    || Over(s, reason)
    || (acts != [] && Typed(s) && Next(s, acts[0]).Some? && WasOver(Next(s, acts[0]).value, acts[1..], reason))
  }

  /** The thread lets go of its sets in order to wait for this, or waits for it. */
  predicate WaitsFor(s: State, pc: Pc, reason: After) {
    || (pc.Release? && pc.next == reason)
    || (pc.Wait? && pc.next == reason)
    || (pc.Wait? && reason.ForSync? && pc.next == ForIdle(reason.upTo) && s.writebackSeq >= reason.upTo)
  }

  lemma WaitStep(s: State, t: Tid, r: State, reason: After)
    requires Typed(s) && t < |s.threads| && DirtierStep(s, t) == Some(r) && !reason.ForIdle?
    requires WaitsFor(s, s.threads[t], reason)
    ensures t < |r.threads| && (WaitsFor(r, r.threads[t], reason) || Over(s, reason))
  {
    if s.threads[t].Wait? && (reason.ForDirtying? || reason.ForWriteback?) {
      assert Eyes(s.threads[t])[0] == reason.on;
    }
  }

  lemma WaitOthers(s: State, a: Action, r: State, t: Tid, reason: After)
    requires Inv(s) && Typed(s) && Next(s, a) == Some(r) && t < |s.threads| && a != Dirtier(t)
    requires t < |r.threads| && r.threads[t] == s.threads[t] && WaitsFor(s, s.threads[t], reason)
    ensures WaitsFor(r, r.threads[t], reason)
  {
    hide Inv, Typed, Next, SetFollows;
    SetStep(s, a, r);
  }

  lemma {:induction false} WaitsOut(s: State, acts: seq<Action>, r: State, t: Tid, reason: After)
    requires Inv(s) && Exec(s, acts) == Some(r) && Inside(s, acts, t) && t < |s.threads| && !reason.ForIdle?
    requires WaitsFor(s, s.threads[t], reason) && t < |r.threads| && r.threads[t].Loop?
    ensures WasOver(s, acts, reason)
    decreases |acts|
  {
    hide Inv, Typed, Next, Over;
    assert acts != [];
    InvTyped(s);
    var m := Next(s, acts[0]).value;
    StepKeeps(s, acts[0], m);
    if acts[0] == Dirtier(t) {
      WaitMine(s, t, m, reason);
    } else {
      AskedStays(s, acts[0], m, t);
      WaitOthers(s, acts[0], m, t, reason);
    }
    if !Over(s, reason) {
      WaitsOut(m, acts[1..], r, t, reason);
    }
  }

  lemma WaitMine(s: State, t: Tid, r: State, reason: After)
    requires Typed(s) && t < |s.threads| && Next(s, Dirtier(t)) == Some(r) && !reason.ForIdle?
    requires WaitsFor(s, s.threads[t], reason)
    ensures t < |r.threads| && (WaitsFor(r, r.threads[t], reason) || Over(s, reason))
  {
    hide DirtierStep, WaitsFor, Over;
    WaitStep(s, t, r, reason);
  }

  /** A call that found a set held by another thread, being written, or too large for the merge starts
      over only after that was over in some state: the set was not DIRTYING, was not being written, or
      writeback had passed the larger set's number and nothing was in flight. */
  lemma RestartsOnlyWhenOver(s: State, t: Tid, acts: seq<Action>, r: State)
    requires Reachable(s) && t < |s.threads| && acts != [] && acts[0] == Dirtier(t)
    requires Exec(s, acts) == Some(r) && Inside(s, acts, t) && t < |r.threads| && r.threads[t].Loop?
    ensures var pc := s.threads[t];
            && (pc.Lock? ==> pc.small < |s.sets|)
            && (pc.Locked? ==> pc.small < |s.sets|)
            && (pc.Lock? && s.sets[pc.small].dirtying.Some? ==> WasOver(s, acts, ForDirtying(pc.small)))
            && (pc.Locked? && s.sets[pc.small].writeback ==> WasOver(s, acts, ForWriteback(pc.small)))
            && (pc.Both? ==>
                  && pc.first < |s.sets| && pc.small < |s.sets|
                  && (s.sets[pc.first].size + s.sets[pc.small].size > 64 ==>
                        WasOver(s, acts, ForSync(s.sets[Larger(s, pc)].dirtySeq))))
  {
    hide Reachable, Inv, Inside, WasOver, Over, DirtierStep, WaitsFor;
    ReachableHolds(s);
    var m := Next(s, acts[0]).value;
    StepKeeps(s, acts[0], m);
    BlockedWaits(s, t, m);
    InsideRest(s, acts, t);
    var pc := s.threads[t];
    if pc.Lock? && s.sets[pc.small].dirtying.Some? {
      WaitsOut(m, acts[1..], r, t, ForDirtying(pc.small));
      WasLater(s, acts, ForDirtying(pc.small));
    } else if pc.Locked? && s.sets[pc.small].writeback {
      WaitsOut(m, acts[1..], r, t, ForWriteback(pc.small));
      WasLater(s, acts, ForWriteback(pc.small));
    } else if pc.Both? && s.sets[pc.first].size + s.sets[pc.small].size > 64 {
      var n := s.sets[Larger(s, pc)].dirtySeq;
      WaitsOut(m, acts[1..], r, t, ForSync(n));
      WasLater(s, acts, ForSync(n));
    }
  }

  /** The set that a merge keeps: the queued one, else the one with more blocks. */
  function Larger(s: State, pc: Pc): Sid
    requires pc.Both? && pc.first < |s.sets| && pc.small < |s.sets|
  {
    if Swaps(s.sets[pc.first], s.sets[pc.small]) then pc.small else pc.first
  }

  lemma InsideRest(s: State, acts: seq<Action>, t: Tid)
    requires Inside(s, acts, t) && acts != [] && Typed(s) && Next(s, acts[0]).Some?
    ensures t < |Next(s, acts[0]).value.threads| && Inside(Next(s, acts[0]).value, acts[1..], t)
  {
  }

  lemma WasLater(s: State, acts: seq<Action>, reason: After)
    requires acts != [] && Typed(s) && Next(s, acts[0]).Some? && WasOver(Next(s, acts[0]).value, acts[1..], reason)
    ensures WasOver(s, acts, reason)
  {
  }

  lemma BlockedWaits(s: State, t: Tid, r: State)
    requires Typed(s) && t < |s.threads| && Next(s, Dirtier(t)) == Some(r)
    ensures t < |r.threads|
    ensures var pc := s.threads[t];
            && (pc.Lock? ==> pc.small < |s.sets|)
            && (pc.Locked? ==> pc.small < |s.sets|)
            && (pc.Lock? && s.sets[pc.small].dirtying.Some? ==> WaitsFor(r, r.threads[t], ForDirtying(pc.small)))
            && (pc.Locked? && s.sets[pc.small].writeback ==> WaitsFor(r, r.threads[t], ForWriteback(pc.small)))
            && (pc.Both? ==>
                  && pc.first < |s.sets| && pc.small < |s.sets|
                  && (s.sets[pc.first].size + s.sets[pc.small].size > 64 ==>
                        WaitsFor(r, r.threads[t], ForSync(s.sets[Larger(s, pc)].dirtySeq))))
  {
    hide Splice;
    var pc := s.threads[t];
    if pc.Lock? {
      assert Eyes(pc)[0] == pc.small;
    } else if pc.Locked? {
      assert Holds(pc)[|Holds(pc)| - 1] == pc.small;
    } else if pc.Both? {
      assert Holds(pc)[0] == pc.first && Holds(pc)[1] == pc.small;
    }
    hide Typed, DirtierStep;
    DirtierLocal(s, t, r);
  }

  /** A merge leaves all blocks of both sets in one of at most 64, and the other set empty. Of two sets
      that are both queued or both not, it moves the one without more blocks; else it keeps the queued
      one. */
  lemma MergeStaysSmall(s: State, t: Tid, r: State)
    requires Reachable(s) && Typed(s) && t < |s.threads| && s.threads[t].Both?
    requires Next(s, Dirtier(t)) == Some(r) && r.threads[t].Merged?
    ensures var pc, y, x := s.threads[t], r.threads[t].first, r.threads[t].small;
            && ((x == pc.first && y == pc.small) || (x == pc.small && y == pc.first))
            && x != y && x < |s.sets| && y < |s.sets| && |r.sets| == |s.sets| && |r.blocks| == |s.blocks|
            && |r.sets[y].list| == |s.sets[x].list| + |s.sets[y].list| <= 64 && r.sets[x].list == []
            && (forall b :: b in r.sets[y].list <==> b in s.sets[x].list || b in s.sets[y].list)
            && (forall b :: 0 <= b < |s.blocks| && b in r.sets[y].list ==> r.blocks[b].owner == Some(y))
            && (if s.sets[x].dirty == s.sets[y].dirty then |s.sets[x].list| <= |s.sets[y].list| else s.sets[y].dirty)
  {
    hide Reachable, Inv, MergedState, Splice, SetOk;
    ReachableHolds(s);
    var pc := s.threads[t];
    assert Holds(pc)[0] == pc.first && Holds(pc)[1] == pc.small;
    InvTypedThread(s, t);
    var y := if Swaps(s.sets[pc.first], s.sets[pc.small]) then pc.small else pc.first;
    var x := if y == pc.small then pc.first else pc.small;
    MergeFacts(s, t, pc, x, y);
    SizeIs(x, s.sets[x], s.blocks);
    SizeIs(y, s.sets[y], s.blocks);
    MergedParts(s, t, pc, r, x, y);
    SpliceMembers(s.sets[y].list, s.sets[x].list, s.blocks);
    SpliceLength(s.sets[y].list, s.sets[x].list, s.blocks);
    forall b | 0 <= b < |s.blocks| && b in r.sets[y].list
      ensures r.blocks[b].owner == Some(y)
    {
      if b in s.sets[y].list {
        InList(y, s.sets[y], s.blocks, b);
      }
    }
  }

  lemma SizeIs(x: Sid, st: BlockSet, blocks: seq<Block>)
    requires SetOk(x, st, blocks) && Calm(st.stage)
    ensures st.size == |st.list|
  {
  }

  lemma InList(x: Sid, st: BlockSet, blocks: seq<Block>, b: Bid)
    requires SetOk(x, st, blocks) && b in st.list
    ensures b < |blocks| && blocks[b].owner == Some(x)
  {
  }

  lemma SpliceLength(l: seq<Bid>, m: seq<Bid>, blocks: seq<Block>)
    requires InRange(l, |blocks|) && InRange(m, |blocks|)
    ensures |Splice(l, m, blocks)| == |l| + |m|
  {
  }
}
