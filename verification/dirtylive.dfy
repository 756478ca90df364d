/** Progress: a call of dirty_begin backs off only for a reason that holds, a wait ends once its reason
    is gone, and whatever is dirty can be written (shared/block.c:460-656, 666-700, 852-973). */
module DirtyProgress {
  import opened Options
  import opened DirtySets
  import opened DirtyInvariant
  import opened DirtyFrames
  import opened DirtySteps
  import opened DirtyRuns
  import opened DirtySync
  import opened DirtyCalls

  // ---- backing off ----

  /** Between its start and its success, neither letting go nor waiting. */
  predicate Trying(pc: Pc) {
    InCall(pc) && !pc.Release? && !pc.Wait? && !pc.Modify?
  }

  /** Why a call must let go of its sets in this step: the next set is held by another thread, or being
      written; the block has left it; or the two sets have more than 64 blocks together. */
  predicate Blocked(s: State, t: Tid, pc: Pc) {
    match pc
    case Lock(_, _, _, x) => x < |s.sets| && s.sets[x].dirtying.Some? && s.sets[x].dirtying.value != t
    case Locked(_, _, _, x) => x < |s.sets| && s.sets[x].writeback
    case Tested(bs, i, _, x) => i < |bs| && bs[i] < |s.blocks| && s.blocks[bs[i]].owner != Some(x)
    case Both(_, _, x, y) =>
      x < |s.sets| && y < |s.sets| && |s.sets[x].list| + |s.sets[y].list| > 64
    case _ => false
  }

  function Phase(pc: Pc): nat {
    match pc
    case Mark(_, _, _) => 2
    case Commit(_, _) => 1
    case Modify(_, _) => 0
    case _ => 3
  }

  /** How far a call is from the end of its phase, in steps of its own. */
  function StepsLeft(pc: Pc): int {
    match pc
    case Loop(bs, i, _) => 6 * (|bs| - i)
    case Lock(bs, i, _, _) => 6 * (|bs| - i) - 1
    case Locked(bs, i, _, _) => 6 * (|bs| - i) - 2
    case Tested(bs, i, _, _) => 6 * (|bs| - i) - 3
    case Both(bs, i, _, _) => 6 * (|bs| - i) - 4
    case Merged(bs, i, _, _) => 6 * (|bs| - i) - 5
    case Mark(_, _, k) => k
    case _ => 0
  }

  /** The call has come closer to its success. */
  predicate Closer(pc: Pc, after: Pc) {
    && (Trying(after) || after.Modify?)
    && (Phase(after) < Phase(pc) || (Phase(after) == Phase(pc) && 0 <= StepsLeft(after) < StepsLeft(pc)))
  }

  /** It backs off exactly if it must, and otherwise comes closer. */
  predicate Advances(s: State, t: Tid, pc: Pc, r: State) {
    && t < |r.threads| && (r.threads[t].Release? <==> Blocked(s, t, pc))
    && (!r.threads[t].Release? ==> Closer(pc, r.threads[t]))
  }

  /** Each step of a call that is not waiting can be taken; it backs off exactly if it must, and
      otherwise comes closer to its success. */
  lemma CallAdvances(s: State, t: Tid)
    requires Reachable(s) && t < |s.threads| && Trying(s.threads[t])
    ensures Typed(s) && Next(s, Dirtier(t)).Some?
    ensures Advances(s, t, s.threads[t], Next(s, Dirtier(t)).value)
  {
    hide Reachable, Inv;
    ReachableHolds(s);
    TryingSteps(s, t);
    var pc := s.threads[t];
    var r := DirtierStep(s, t).value;
    if pc.Lock? {
      LockBlocks(s, t);
    } else if pc.Both? {
      MergeBlocks(s, t, r);
    } else {
      InvTypedThread(s, t);
      OtherAdvances(s, t, r);
    }
  }

  /** A call starts exactly if fewer than 1024 blocks count as dirty. */
  lemma CallStartsIff(s: State, t: Tid, want: seq<Bid>)
    requires Reachable(s) && Typed(s) && t < |s.threads| && s.threads[t].Outside?
    requires want != [] && InRange(want, |s.blocks|)
    ensures Next(s, Begin(t, want)).Some? <==> CountDirty(s.blocks) < 1024
  {
    hide Reachable, CountDirty, Typed;
    NrDirtyIsExact(s);
  }

  lemma TryingSteps(s: State, t: Tid)
    requires Inv(s) && Typed(s) && t < |s.threads| && Trying(s.threads[t])
    ensures DirtierStep(s, t).Some?
  {
    hide SetsOk, BlocksOk, ThreadsOk, HeldsOk, InTurn, WorkerOk, CountsOk, SyncsOk, Typed, Shaped, DirtyFirst;
    ThreadAt(s, t);
    if Holds(s.threads[t]) != [] {
      HolderSteps(s, t);
    }
  }

  lemma LockBlocks(s: State, t: Tid)
    requires Inv(s) && Typed(s) && t < |s.threads| && s.threads[t].Lock?
    ensures DirtierStep(s, t).Some?
    ensures Advances(s, t, s.threads[t], DirtierStep(s, t).value)
  {
    hide SetsOk, BlocksOk, ThreadsOk, InTurn, WorkerOk, CountsOk, SyncsOk, Building;
    ThreadAt(s, t);
    var pc := s.threads[t];
    var x := pc.small;
    assert Eyes(pc)[0] == x;
    assert Held(x, s.sets[x], s.threads);
  }

  lemma MergeEither(s: State, t: Tid, pc: Pc, r: State)
    requires Typed(s) && t < |s.threads| && pc == s.threads[t] && pc.Both? && Merge(s, t, pc) == Some(r)
    ensures pc.first < |s.sets| && pc.small < |s.sets| && t < |r.threads|
    ensures if s.sets[pc.first].size + s.sets[pc.small].size > 64 then r.threads[t].Release?
            else r.threads[t].Merged? && r.threads[t].bs == pc.bs && r.threads[t].i == pc.i
  {
    hide Splice, Repointed, Swaps;
    assert Holds(pc)[0] == pc.first && Holds(pc)[1] == pc.small;
  }

  lemma MergeBlocks(s: State, t: Tid, r: State)
    requires Inv(s) && Typed(s) && t < |s.threads| && s.threads[t].Both? && DirtierStep(s, t) == Some(r)
    ensures Advances(s, t, s.threads[t], r)
  {
    hide Inv, Merge;
    MergeEither(s, t, s.threads[t], r);
    BothSizes(s, t);
    InvTypedThread(s, t);
    hide Typed, DirtierStep, Holds;
  }

  lemma BothSizes(s: State, t: Tid)
    requires Inv(s) && t < |s.threads| && s.threads[t].Both?
    ensures var pc := s.threads[t];
            && pc.first < |s.sets| && pc.small < |s.sets|
            && s.sets[pc.first].size == |s.sets[pc.first].list| && s.sets[pc.small].size == |s.sets[pc.small].list|
  {
    hide SetsOk, BlocksOk, ThreadsOk, HeldsOk, InTurn, WorkerOk, CountsOk, SyncsOk, SetOk;
    ThreadAt(s, t);
    var pc := s.threads[t];
    SetAt(s, pc.first);
    SetAt(s, pc.small);
    SizeIs(pc.first, s.sets[pc.first], s.blocks);
    SizeIs(pc.small, s.sets[pc.small], s.blocks);
  }

  lemma OtherAdvances(s: State, t: Tid, r: State)
    requires Typed(s) && t < |s.threads| && Trying(s.threads[t]) && DirtierStep(s, t) == Some(r)
    requires !s.threads[t].Lock? && !s.threads[t].Both? && PcTyped(s.threads[t], |s.blocks|, |s.sets|)
    ensures Advances(s, t, s.threads[t], r)
  {
    hide Advances, Fetch, TestWriteback, CheckOwner, DropSmall, MarkOne, CommitSet, Merge, TryLock, End, ReleaseOne, Resume;
    hide Typed;
    var pc := s.threads[t];
    match pc
    case Loop(_, _, _) => FetchAdvances(s, t, pc, r);
    case Locked(_, _, _, _) => TestAdvances(s, t, pc, r);
    case Tested(_, _, _, _) => TestAdvances(s, t, pc, r);
    case _ => RestAdvances(s, t, pc, r);
  }

  lemma FetchAdvances(s: State, t: Tid, pc: Pc, r: State)
    requires Typed(s) && t < |s.threads| && pc == s.threads[t] && pc.Loop? && Fetch(s, t, pc) == Some(r)
    requires PcTyped(pc, |s.blocks|, |s.sets|)
    ensures Advances(s, t, pc, r)
  {
  }

  lemma TestAdvances(s: State, t: Tid, pc: Pc, r: State)
    requires Typed(s) && t < |s.threads| && pc == s.threads[t] && PcTyped(pc, |s.blocks|, |s.sets|)
    requires (pc.Locked? && TestWriteback(s, t, pc) == Some(r)) || (pc.Tested? && CheckOwner(s, t, pc) == Some(r))
    ensures Advances(s, t, pc, r)
  {
    assert Holds(pc)[|Holds(pc)| - 1] == pc.small;
  }

  lemma RestAdvances(s: State, t: Tid, pc: Pc, r: State)
    requires Typed(s) && t < |s.threads| && pc == s.threads[t] && PcTyped(pc, |s.blocks|, |s.sets|)
    requires || (pc.Merged? && DropSmall(s, t, pc) == Some(r)) || (pc.Mark? && MarkOne(s, t, pc) == Some(r))
             || (pc.Commit? && CommitSet(s, t, pc) == Some(r))
    ensures Advances(s, t, pc, r)
  {
  }

  // ---- waiting ----

  /** A run of t's own steps. */
  predicate Alone(acts: seq<Action>, t: Tid) {
    forall k :: 0 <= k < |acts| ==> acts[k] == Dirtier(t)
  }

  /** Once its reason is gone a wait ends by at most two steps of its own, with the walk over all the
      blocks that were asked for. */
  lemma WaitEnds(s: State, t: Tid) returns (acts: seq<Action>)
    requires Typed(s) && t < |s.threads| && s.threads[t].Wait? && Over(s, s.threads[t].next)
    ensures 0 < |acts| <= 2 && Alone(acts, t)
    ensures Exec(s, acts) == Some(At(s, t, Loop(s.threads[t].bs, 0, None))) && Inside(s, acts, t)
  {
    hide Typed;
    var pc := s.threads[t];
    if pc.next.ForSync? {
      acts := [Dirtier(t), Dirtier(t)];
      var m := At(s, t, Wait(pc.bs, ForIdle(pc.next.upTo)));
      WaitTyped(s, t, m.threads[t]);
      WaitStepped(s, t);
      WaitStepped(m, t);
      assert s.threads[t := m.threads[t]][t := Loop(pc.bs, 0, None)] == s.threads[t := Loop(pc.bs, 0, None)];
      ExecTwo(s, Dirtier(t), m, Dirtier(t), At(m, t, Loop(pc.bs, 0, None)));
    } else {
      acts := [Dirtier(t)];
      WaitStepped(s, t);
      ExecOne(s, Dirtier(t), Next(s, Dirtier(t)).value);
    }
  }

  lemma WaitTyped(s: State, t: Tid, pc: Pc)
    requires Typed(s) && t < |s.threads| && s.threads[t].Wait? && pc.Wait? && pc.bs == s.threads[t].bs
    requires AfterEyes(pc.next) == []
    ensures Typed(At(s, t, pc))
  {
  }

  lemma WaitStepped(s: State, t: Tid)
    requires Typed(s) && t < |s.threads| && s.threads[t].Wait? && Over(s, s.threads[t].next)
    ensures var pc := s.threads[t];
            && Next(s, Dirtier(t)) == Some(At(s, t, if pc.next.ForSync? then Wait(pc.bs, ForIdle(pc.next.upTo))
                                                   else Loop(pc.bs, 0, None)))
  {
    var pc := s.threads[t];
    if pc.next.ForDirtying? || pc.next.ForWriteback? {
      assert Eyes(pc)[0] == pc.next.on;
    }
  }

  lemma ExecOne(s: State, a: Action, r: State)
    requires Typed(s) && Next(s, a) == Some(r)
    ensures Exec(s, [a]) == Some(r)
    ensures forall t: Tid :: t < |r.threads| && r.threads[t] != Outside ==> Inside(s, [a], t)
  {
    hide Typed, Next;
    assert [a][1..] == [];
    assert Exec(r, []) == Some(r);
  }

  lemma ExecTwo(s: State, a: Action, m: State, c: Action, r: State)
    requires Typed(s) && Next(s, a) == Some(m) && Typed(m) && Next(m, c) == Some(r)
    ensures Exec(s, [a, c]) == Some(r)
    ensures forall t: Tid :: t < |m.threads| && m.threads[t] != Outside && t < |r.threads| && r.threads[t] != Outside ==>
              Inside(s, [a, c], t)
  {
    hide Typed, Next;
    ExecOne(m, c, r);
    assert [a, c][1..] == [c];
  }

  /** A sync likewise returns by at most two steps of its own once writeback has passed its number and
      nothing is in flight. */
  lemma SyncEnds(s: State, t: Tid) returns (acts: seq<Action>)
    requires Typed(s) && t < |s.threads| && (s.threads[t].Syncing? || s.threads[t].SeenSeq?)
    requires s.writebackSeq >= s.threads[t].goal && s.nrWriteback == 0
    ensures 0 < |acts| <= 2 && (forall k :: 0 <= k < |acts| ==> acts[k] == Sync(t))
    ensures Exec(s, acts) == Some(At(s, t, Outside))
  {
    hide Typed;
    if s.threads[t].Syncing? {
      acts := [Sync(t), Sync(t)];
      var m := At(s, t, SeenSeq(s.threads[t].goal));
      SyncTyped(s, t, m.threads[t]);
      assert s.threads[t := m.threads[t]][t := Outside] == s.threads[t := Outside];
      ExecTwo(s, Sync(t), m, Sync(t), At(m, t, Outside));
    } else {
      acts := [Sync(t)];
      ExecOne(s, Sync(t), At(s, t, Outside));
    }
  }

  lemma SyncTyped(s: State, t: Tid, pc: Pc)
    requires Typed(s) && t < |s.threads| && (pc.Outside? || pc.Syncing? || pc.SeenSeq?)
    ensures Typed(At(s, t, pc))
  {
  }

  /** The worker that gave a set back to its dirtier takes no other before that dirtier has cleared
      DIRTYING. */
  lemma {:induction false} WorkerWaitsOut(s: State, acts: seq<Action>, r: State, x: Sid)
    requires Inv(s) && Exec(s, acts) == Some(r) && (s.worker == Backing(x) || s.worker == Waiting(x))
    ensures r.worker != Backing(x) && r.worker != Waiting(x) ==> WasOver(s, acts, ForDirtying(x))
    decreases |acts|
  {
    hide Inv, Typed, Next, Over;
    if acts != [] {
      InvTyped(s);
      var m := Next(s, acts[0]).value;
      StepKeeps(s, acts[0], m);
      BackedStep(s, acts[0], m, x);
      if !Over(s, ForDirtying(x)) {
        WorkerWaitsOut(m, acts[1..], r, x);
      }
    }
  }

  lemma BackedStep(s: State, a: Action, m: State, x: Sid)
    requires Typed(s) && Next(s, a) == Some(m) && (s.worker == Backing(x) || s.worker == Waiting(x))
    ensures m.worker == Backing(x) || m.worker == Waiting(x) || Over(s, ForDirtying(x))
  {
    hide DirtierStep, Fetch;
    if a.Dirtier? {
      DirtierLocal(s, a.t, m);
    }
  }
}
