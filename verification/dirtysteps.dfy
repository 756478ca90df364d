/** Every step of a dirtying thread keeps the invariant (shared/block.c:734-996). */
module DirtySteps {
  import opened Options
  import opened DirtySets
  import opened DirtyInvariant
  import opened DirtyFrames

  /** Nothing changes but where the thread is. */
  lemma Moves(s: State, t: Tid, pc: Pc)
    requires Inv(s) && t < |s.threads|
    requires ThreadOk(t, pc, s.blocks, s.sets)
    requires forall x :: x in Holds(s.threads[t]) ==> x in Holds(pc)
    requires pc.SeenSeq? ==> pc.goal <= s.writebackSeq
    ensures Inv(At(s, t, pc))
  {
    hide SetOk, BlockOk, ThreadOk, CountsOk, InTurn;
    var r := At(s, t, pc);
    forall x | 0 <= x < |r.sets|
      ensures Held(x, r.sets[x], r.threads)
    {
      assert Held(x, s.sets[x], s.threads);
    }
    assert InTurn(r) by { TurnSame(s, r); }
    assert CountsOk(r) by { CountsSame(s, r); }
  }

  lemma TurnSame(s: State, r: State)
    requires InTurn(s) && r == s.(threads := r.threads)
    ensures InTurn(r)
  {
    assert Queue(r) == Queue(s);
  }

  lemma WorkerSame(s: State, r: State)
    requires WorkerOk(s) && r == s.(threads := r.threads)
    ensures WorkerOk(r)
  {
  }

  lemma CountsSame(s: State, r: State)
    requires CountsOk(s) && r == s.(threads := r.threads)
    ensures CountsOk(r)
  {
  }

  /** A block is listed by the set it points to. */
  lemma Listed(s: State, b: Bid, x: Sid)
    requires SetsOk(s) && BlocksOk(s) && b < |s.blocks| && x < |s.sets|
    ensures s.blocks[b].owner == Some(x) <==> b in s.sets[x].list
    ensures InRange(s.sets[x].list, |s.blocks|)
  {
    hide IoOk, BitsOk, Settled, Distinct, AllDebited;
    assert SetOk(x, s.sets[x], s.blocks);
    assert BlockOk(b, s.blocks[b], s.sets);
  }

  /** A thread that has at least one block in its set keeps the set non-empty. */
  lemma NotEmpty(s: State, t: Tid, bs: seq<Bid>, i: nat, x: Sid)
    requires SetsOk(s) && BlocksOk(s) && InRange(bs, |s.blocks|) && |bs| > 0 && i > 0
    requires x < |s.sets| && Joined(bs, i, s.blocks, x)
    ensures s.sets[x].list != []
  {
    hide SetsOk, BlocksOk;
    Listed(s, bs[0], x);
  }

  // ---- get_other_set ----

  /** A block without a set goes to the end of the set being built. */
  lemma AddKeeps(s: State, t: Tid, pc: Pc, r: State)
    requires Inv(s) && Typed(s) && t < |s.threads| && pc == s.threads[t] && pc.Loop?
    requires pc.i < |pc.bs| && pc.large.Some? && s.blocks[Asked(pc)[pc.i]].owner.None?
    requires Fetch(s, t, pc) == Some(r)
    ensures Inv(r)
  {
    hide SetsOk, BlocksOk, ThreadsOk, HeldsOk, InTurn, WorkerOk, CountsOk, ThreadOk, SetOk;
    var x, b := pc.large.value, pc.bs[pc.i];
    AddSets(s, t, pc, r);
    AddThread(s, t, pc, r);
    AddBlocks(s, t, pc, r);
    AddQuiet(s, t, pc, r);
    QuietKeeps(s, r);
  }

  predicate Adding(s: State, t: Tid, pc: Pc, r: State) {
    && Inv(s) && Typed(s) && t < |s.threads| && pc == s.threads[t] && pc.Loop?
    && pc.i < |pc.bs| && pc.large.Some? && s.blocks[Asked(pc)[pc.i]].owner.None?
    && Fetch(s, t, pc) == Some(r)
  }

  lemma AddFacts(s: State, t: Tid, pc: Pc, r: State)
    requires Adding(s, t, pc, r)
    ensures var x, b := pc.large.value, pc.bs[pc.i];
            && x < |s.sets| && b < |s.blocks| && ThreadOk(t, pc, s.blocks, s.sets)
            && Building(pc.large, pc.bs, pc.i, t, s.blocks, s.sets)
            && SetOk(x, s.sets[x], s.blocks) && s.sets[x].list != []
            && s.blocks[b].owner.None? && !s.blocks[b].dirty && s.blocks[b].io == Idle && !s.blocks[b].debited
            && b !in s.sets[x].list
  {
    hide SetsOk, BlocksOk, HeldsOk, InTurn, WorkerOk, CountsOk, SetOk, Shaped, Fetch, Typed;
    var x, b := pc.large.value, pc.bs[pc.i];
    assert ThreadOk(t, pc, s.blocks, s.sets);
    assert Asked(pc)[pc.i] == b;
    assert BlockOk(b, s.blocks[b], s.sets) by { BlockAt(s, b); }
    assert SetOk(x, s.sets[x], s.blocks) by { SetAt(s, x); }
    NotEmpty(s, t, pc.bs, pc.i, x);
    Listed(s, b, x);
  }

  lemma SetAt(s: State, x: Sid)
    requires SetsOk(s) && x < |s.sets|
    ensures SetOk(x, s.sets[x], s.blocks)
  {
  }

  lemma BlockAt(s: State, b: Bid)
    requires BlocksOk(s) && b < |s.blocks|
    ensures BlockOk(b, s.blocks[b], s.sets)
  {
  }

  lemma AddSets(s: State, t: Tid, pc: Pc, r: State)
    requires Adding(s, t, pc, r)
    ensures SetsOk(r)
  {
    hide BlocksOk, ThreadsOk, HeldsOk, InTurn, WorkerOk, CountsOk, ThreadOk, Fetch, Typed, Shaped, Joined, SetOk;
    AddFacts(s, t, pc, r);
    AddShape(s, t, pc, r);
    var x, b := pc.large.value, pc.bs[pc.i];
    OtherSetsKeep(s, r, {x});
    AddedSet(s, t, x, b, r.sets[x], r.blocks);
  }

  lemma AddedSet(s: State, t: Tid, x: Sid, b: Bid, st: BlockSet, blocks: seq<Block>)
    requires x < |s.sets| && b < |s.blocks| && SetOk(x, s.sets[x], s.blocks) && s.sets[x].list != []
    requires s.blocks[b].owner.None? && s.blocks[b].io == Idle && !s.blocks[b].debited && b !in s.sets[x].list
    requires Calm(s.sets[x].stage) && s.sets[x].dirtying.Some?
    requires st == s.sets[x].(list := s.sets[x].list + [b], size := s.sets[x].size + 1)
    requires blocks == s.blocks[b := s.blocks[b].(owner := Some(x))]
    ensures SetOk(x, st, blocks)
  {
  }

  lemma AddThread(s: State, t: Tid, pc: Pc, r: State)
    requires Adding(s, t, pc, r)
    ensures ThreadsOk(r)
  {
    hide SetsOk, BlocksOk, HeldsOk, InTurn, WorkerOk, CountsOk, ThreadsOk, ThreadOk, SetOk, Typed, Shaped;
    AddFacts(s, t, pc, r);
    AddShape(s, t, pc, r);
    var x, b := pc.large.value, pc.bs[pc.i];
    assert SameForOwners(s, r, t);
    OtherThreadsKeep(s, r, t);
    assert ThreadOk(t, r.threads[t], r.blocks, r.sets) by {
      IsLooping(r, t, pc.bs, pc.i + 1, x);
    }
    AllThreads(r, t);
  }

  /** The state after the block was added, and what the thread knows in it. */
  lemma AddShape(s: State, t: Tid, pc: Pc, r: State)
    requires Adding(s, t, pc, r)
    ensures var x, b := pc.large.value, pc.bs[pc.i];
            && x < |s.sets| && b < |s.blocks| && InRange(pc.bs, |s.blocks|)
            && r == At(WithSet(WithBlock(s, b, s.blocks[b].(owner := Some(x))), x,
                               s.sets[x].(list := s.sets[x].list + [b], size := s.sets[x].size + 1)),
                       t, Loop(pc.bs, pc.i + 1, pc.large))
            && Own(x, t, r.sets) && Calm(r.sets[x].stage) && Shaped(r.sets[x], r.blocks)
            && Joined(pc.bs, pc.i + 1, r.blocks, x)
  {
    hide SetsOk, BlocksOk, HeldsOk, InTurn, WorkerOk, CountsOk, ThreadsOk;
    AddFacts(s, t, pc, r);
  }

  lemma IsLooping(r: State, t: Tid, bs: seq<Bid>, i: nat, x: Sid)
    requires InRange(bs, |r.blocks|) && 0 < i <= |bs| && Own(x, t, r.sets) && Calm(r.sets[x].stage)
    requires Shaped(r.sets[x], r.blocks) && Joined(bs, i, r.blocks, x)
    ensures ThreadOk(t, Loop(bs, i, Some(x)), r.blocks, r.sets)
  {
    hide Shaped, Joined;
  }

  lemma AllThreads(r: State, t: Tid)
    requires t < |r.threads| && ThreadOk(t, r.threads[t], r.blocks, r.sets)
    requires forall u :: 0 <= u < |r.threads| && u != t ==> ThreadOk(u, r.threads[u], r.blocks, r.sets)
    ensures ThreadsOk(r)
  {
    hide ThreadOk;
  }

  lemma AddBlocks(s: State, t: Tid, pc: Pc, r: State)
    requires Adding(s, t, pc, r)
    ensures BlocksOk(r) && HeldsOk(r)
  {
    hide SetsOk, ThreadsOk, InTurn, WorkerOk, CountsOk, ThreadOk, SetOk;
    AddFacts(s, t, pc, r);
    var x, b := pc.large.value, pc.bs[pc.i];
    forall c | 0 <= c < |r.blocks|
      ensures BlockOk(c, r.blocks[c], r.sets)
    {
      assert BlockOk(c, s.blocks[c], s.sets);
    }
    forall y | 0 <= y < |r.sets|
      ensures Held(y, r.sets[y], r.threads)
    {
      assert Held(y, s.sets[y], s.threads);
    }
  }

  lemma AddQuiet(s: State, t: Tid, pc: Pc, r: State)
    requires Adding(s, t, pc, r)
    ensures Quiet(s, r) && r.nrDirty == CountDirty(r.blocks)
  {
    hide SetsOk, BlocksOk, HeldsOk, ThreadsOk, InTurn, WorkerOk, SetOk, CountDirty, CountWriteback, CountCounted, SumSubmitted;
    hide Fetch, Typed, Shaped, Joined, ThreadOk, Own;
    AddFacts(s, t, pc, r);
    AddShape(s, t, pc, r);
    CountDirtyFrame(s.blocks, r.blocks);
  }

  /** A block without a set, when the thread has none either, gets a new one. */
  function NewSet(s: State, t: Tid, bs: seq<Bid>, b: Bid): State
    requires t < |s.threads| && b < |s.blocks|
  {
    var x := |s.sets|;
    At(s.(blocks := s.blocks[b := s.blocks[b].(owner := Some(x))],
          sets := s.sets + [BlockSet([b], 1, 0, 0, None, false, false, Open)]),
       t, Lock(bs, 0, None, x))
  }

  lemma NewSetKeeps(s: State, t: Tid, bs: seq<Bid>, b: Bid)
    requires Inv(s) && t < |s.threads| && s.threads[t] == Loop(bs, 0, None)
    requires bs != [] && bs[0] == b && InRange(bs, |s.blocks|) && s.blocks[b].owner.None?
    ensures Inv(NewSet(s, t, bs, b))
  {
    hide SetsOk, BlocksOk, ThreadsOk, InTurn, WorkerOk, CountDirty, CountWriteback, CountCounted, SumSubmitted;
    hide HeldsOk, ThreadOk;
    var x := |s.sets|;
    var r := NewSet(s, t, bs, b);
    BlockAt(s, b);
    assert SetsOk(r) by { NewSets(s, r, b); }
    assert BlocksOk(r) by { NewBlocks(s, r, b); }
    assert ThreadsOk(r) by {
      assert SameForOwners(s, r, t);
      OtherThreadsKeep(s, r, t);
      assert ThreadOk(t, r.threads[t], r.blocks, r.sets) by { FreshOk(t, bs, x, r); }
      AllThreads(r, t);
    }
    assert HeldsOk(r) by { NewHolds(s, r, t); }
    CountDirtyFrame(s.blocks, r.blocks);
    QuietKeeps(s, r);
  }

  lemma FreshOk(t: Tid, bs: seq<Bid>, x: Sid, r: State)
    requires InRange(bs, |r.blocks|) && bs != [] && x < |r.sets|
    ensures ThreadOk(t, Lock(bs, 0, None, x), r.blocks, r.sets)
  {
  }

  lemma NewHolds(s: State, r: State, t: Tid)
    requires HeldsOk(s) && |r.sets| == |s.sets| + 1 && t < |s.threads| == |r.threads|
    requires Holds(s.threads[t]) == [] && r.sets[|s.sets|].dirtying.None?
    requires forall x :: 0 <= x < |s.sets| ==> r.sets[x] == s.sets[x]
    requires forall u :: 0 <= u < |s.threads| && u != t ==> r.threads[u] == s.threads[u]
    ensures HeldsOk(r)
  {
    forall y | 0 <= y < |r.sets|
      ensures Held(y, r.sets[y], r.threads)
    {
      if y < |s.sets| {
        assert Held(y, s.sets[y], s.threads);
      }
    }
  }

  lemma ThreadAt(s: State, t: Tid)
    requires ThreadsOk(s) && t < |s.threads|
    ensures ThreadOk(t, s.threads[t], s.blocks, s.sets)
  {
    hide ThreadOk;
  }

  lemma NewSets(s: State, r: State, b: Bid)
    requires SetsOk(s) && b < |s.blocks| && BlockOk(b, s.blocks[b], s.sets) && s.blocks[b].owner.None?
    requires r.blocks == s.blocks[b := s.blocks[b].(owner := Some(|s.sets|))]
    requires r.sets == s.sets + [BlockSet([b], 1, 0, 0, None, false, false, Open)]
    ensures SetsOk(r)
  {
    hide SetsOk;
    OtherSetsKeep(s, r, {});
    assert SetOk(|s.sets|, r.sets[|s.sets|], r.blocks);
    assert SetsOk(r) by { AllSets(r, {|s.sets|}); }
  }

  lemma AllSets(r: State, X: set<Sid>)
    requires forall x :: 0 <= x < |r.sets| && x in X ==> SetOk(x, r.sets[x], r.blocks)
    requires forall x :: 0 <= x < |r.sets| && x !in X ==> SetOk(x, r.sets[x], r.blocks)
    ensures SetsOk(r)
  {
    hide SetOk;
  }

  lemma NewBlocks(s: State, r: State, b: Bid)
    requires BlocksOk(s) && b < |s.blocks| && BlockOk(b, s.blocks[b], s.sets) && s.blocks[b].owner.None?
    requires r.blocks == s.blocks[b := s.blocks[b].(owner := Some(|s.sets|))]
    requires r.sets == s.sets + [BlockSet([b], 1, 0, 0, None, false, false, Open)]
    ensures BlocksOk(r)
  {
    forall c | 0 <= c < |r.blocks|
      ensures BlockOk(c, r.blocks[c], r.sets)
    {
      assert BlockOk(c, s.blocks[c], s.sets);
    }
  }

  lemma FetchKeeps(s: State, t: Tid, pc: Pc, r: State)
    requires Inv(s) && Typed(s) && t < |s.threads| && pc == s.threads[t] && pc.Loop?
    requires Fetch(s, t, pc) == Some(r)
    ensures Inv(r)
  {
    hide SetsOk, BlocksOk, ThreadsOk, HeldsOk, InTurn, WorkerOk, CountsOk, Shaped;
    ThreadAt(s, t);
    if pc.i == |pc.bs| {
      var x := pc.large.value;
      assert Marking(s.sets[x], |s.sets[x].list|, s.blocks) by { AllToMark(s, x); }
      Moves(s, t, Mark(pc.bs, x, |s.sets[x].list|));
    } else {
      var b := pc.bs[pc.i];
      assert Asked(pc)[pc.i] == b;
      var owner := s.blocks[b].owner;
      if owner.Some? {
        if pc.large == owner {
          Moves(s, t, Loop(pc.bs, pc.i + 1, pc.large));
        } else {
          Moves(s, t, Lock(pc.bs, pc.i, pc.large, owner.value));
        }
      } else if pc.large.Some? {
        AddKeeps(s, t, pc, r);
      } else {
        assert r == NewSet(s, t, pc.bs, b);
        NewSetKeeps(s, t, pc.bs, b);
      }
    }
  }

  lemma AllToMark(s: State, x: Sid)
    requires SetsOk(s) && x < |s.sets| && Calm(s.sets[x].stage) && Shaped(s.sets[x], s.blocks)
    ensures Marking(s.sets[x], |s.sets[x].list|, s.blocks)
  {
    hide SetsOk;
    var list := s.sets[x].list;
    assert list[..|list|] == list;
  }

  // ---- locking ----

  /** Only a DIRTYING bit changes, and it is this thread's. */
  lemma BitKeeps(s: State, t: Tid, x: Sid, d: Option<Tid>, pc: Pc, r: State)
    requires Inv(s) && t < |s.threads| && x < |s.sets|
    requires s.sets[x].dirtying.None? || s.sets[x].dirtying == Some(t)
    requires d.None? || (d == Some(t) && x in Holds(pc))
    requires r == At(WithSet(s, x, s.sets[x].(dirtying := d)), t, pc)
    requires SetOk(x, r.sets[x], s.blocks) && ThreadOk(t, pc, r.blocks, r.sets) && !pc.SeenSeq?
    requires forall y :: y in Holds(s.threads[t]) && y != x ==> y in Holds(pc)
    ensures Inv(r)
  {
    hide SetsOk, BlocksOk, ThreadsOk, InTurn, WorkerOk, CountsOk, SetOk, ThreadOk;
    assert SetsOk(r) by { OtherSetsKeep(s, r, {x}); AllSets(r, {x}); }
    assert BlocksOk(r) by { SameLists(s, r); }
    assert SameForOwners(s, r, t);
    OtherThreadsKeep(s, r, t);
    AllThreads(r, t);
    assert HeldsOk(r) by {
      forall y | 0 <= y < |r.sets|
        ensures Held(y, r.sets[y], r.threads)
      {
        assert Held(y, s.sets[y], s.threads);
      }
    }
    assert r.nrDirty == CountDirty(r.blocks) by { DirtyCount(s); }
    QuietKeeps(s, r);
  }

  lemma DirtyCount(s: State)
    requires CountsOk(s)
    ensures s.nrDirty == CountDirty(s.blocks)
  {
  }

  lemma SameLists(s: State, r: State)
    requires BlocksOk(s) && r.blocks == s.blocks && |r.sets| == |s.sets|
    requires forall x :: 0 <= x < |s.sets| ==> r.sets[x].list == s.sets[x].list
    ensures BlocksOk(r)
  {
    forall c | 0 <= c < |r.blocks|
      ensures BlockOk(c, r.blocks[c], r.sets)
    {
      assert BlockOk(c, s.blocks[c], s.sets);
    }
  }

  /** An unlocked set has its clean blocks last. */
  lemma SettledIsShaped(st: BlockSet, blocks: seq<Block>)
    requires InRange(st.list, |blocks|) && Settled(st, blocks)
    ensures Shaped(st, blocks)
  {
  }

  lemma TryLockKeeps(s: State, t: Tid, pc: Pc, r: State)
    requires Inv(s) && Typed(s) && t < |s.threads| && pc == s.threads[t] && pc.Lock?
    requires TryLock(s, t, pc) == Some(r)
    ensures Inv(r)
  {
    hide SetsOk, BlocksOk, ThreadsOk, InTurn, WorkerOk, CountsOk, Shaped, HeldsOk, Joined;
    ThreadAt(s, t);
    var x := pc.small;
    assert Eyes(pc)[0] == x;
    if s.sets[x].dirtying.Some? {
      Moves(s, t, Release(pc.bs, Seqs(pc.large), ForDirtying(x)));
    } else {
      LockedKeeps(s, t, pc, x);
    }
  }

  lemma LockedKeeps(s: State, t: Tid, pc: Pc, x: Sid)
    requires Inv(s) && t < |s.threads| && pc == s.threads[t] && pc.Lock? && x == pc.small && x < |s.sets|
    requires s.sets[x].dirtying.None?
    ensures Inv(At(WithSet(s, x, s.sets[x].(dirtying := Some(t))), t, Locked(pc.bs, pc.i, pc.large, x)))
  {
    hide SetsOk, BlocksOk, ThreadsOk, InTurn, WorkerOk, CountsOk, Shaped, HeldsOk, Inv, SetOk, ThreadOk;
    InvParts(s);
    ThreadAt(s, t);
    SetAt(s, x);
    var pc1 := Locked(pc.bs, pc.i, pc.large, x);
    var r := At(WithSet(s, x, s.sets[x].(dirtying := Some(t))), t, pc1);
    LockedOk(x, s.sets[x], s.blocks, t);
    assert ThreadOk(t, pc1, r.blocks, r.sets) by { IsLocked(s, t, pc, x, r); }
    BitKeeps(s, t, x, Some(t), pc1, r);
  }

  lemma IsLocked(s: State, t: Tid, pc: Pc, x: Sid, r: State)
    requires pc.Lock? && ThreadOk(t, pc, s.blocks, s.sets) && x == pc.small && x < |s.sets|
    requires SetOk(x, s.sets[x], s.blocks) && s.sets[x].dirtying.None?
    requires r.blocks == s.blocks && r.sets == s.sets[x := s.sets[x].(dirtying := Some(t))]
    ensures ThreadOk(t, Locked(pc.bs, pc.i, pc.large, x), r.blocks, r.sets)
  {
    hide Shaped, IoOk, BitsOk, AllDebited, Joined;
    SettledIsShaped(s.sets[x], s.blocks);
    ShapedBit(s.sets[x], r.sets[x], s.blocks);
    assert pc.large != Some(x);
  }

  lemma ShapedBit(st: BlockSet, after: BlockSet, blocks: seq<Block>)
    requires Shaped(st, blocks) && after.list == st.list && after.stage == st.stage
    ensures Shaped(after, blocks)
  {
  }

  lemma LockedOk(x: Sid, st: BlockSet, blocks: seq<Block>, t: Tid)
    requires SetOk(x, st, blocks)
    ensures SetOk(x, st.(dirtying := Some(t)), blocks)
  {
  }

  lemma UnlockedOk(x: Sid, st: BlockSet, blocks: seq<Block>)
    requires SetOk(x, st, blocks) && Settled(st, blocks)
    ensures SetOk(x, st.(dirtying := None), blocks)
  {
  }

  /** Backing off from a set just locked and from the one being built. */
  lemma BacksOff(s: State, t: Tid, large: Option<Sid>, bs: seq<Bid>, i: nat, x: Sid, next: After)
    requires InRange(bs, |s.blocks|) && bs != [] && Building(large, bs, i, t, s.blocks, s.sets)
    requires Own(x, t, s.sets) && Shaped(s.sets[x], s.blocks) && large != Some(x)
    requires InRange(AfterEyes(next), |s.sets|)
    ensures ThreadOk(t, Release(bs, [x] + Seqs(large), next), s.blocks, s.sets)
  {
    hide Shaped, Joined;
  }

  lemma NotSame(large: Option<Sid>, x: Sid)
    requires Distinct(Seqs(large) + [x])
    ensures large != Some(x)
  {
    if large.Some? {
      var ids := Seqs(large) + [x];
      assert ids[0] == large.value && ids[1] == x;
    }
  }

  lemma TestKeeps(s: State, t: Tid, pc: Pc, r: State)
    requires Inv(s) && Typed(s) && t < |s.threads| && pc == s.threads[t] && pc.Locked?
    requires TestWriteback(s, t, pc) == Some(r)
    ensures Inv(r)
  {
    hide SetsOk, BlocksOk, ThreadsOk, InTurn, WorkerOk, CountsOk, Shaped, IoOk, Settled, AllDebited, HeldsOk;
    hide Building, Typed, Distinct;
    ThreadAt(s, t);
    var x := pc.small;
    assert Holds(pc)[|Holds(pc)| - 1] == x;
    NotSame(pc.large, x);
    SetAt(s, x);
    if s.sets[x].writeback {
      BacksOff(s, t, pc.large, pc.bs, pc.i, x, ForWriteback(x));
      Moves(s, t, Release(pc.bs, [x] + Seqs(pc.large), ForWriteback(x)));
    } else {
      assert BitsOk(s.sets[x]);
      Moves(s, t, Tested(pc.bs, pc.i, pc.large, x));
    }
  }

  lemma CheckKeeps(s: State, t: Tid, pc: Pc, r: State)
    requires Inv(s) && Typed(s) && t < |s.threads| && pc == s.threads[t] && pc.Tested?
    requires CheckOwner(s, t, pc) == Some(r)
    ensures Inv(r)
  {
    hide SetsOk, BlocksOk, ThreadsOk, InTurn, WorkerOk, CountsOk, Shaped, IoOk, Settled, AllDebited, HeldsOk;
    hide Building, Typed, Distinct;
    ThreadAt(s, t);
    var x, b := pc.small, pc.bs[pc.i];
    assert Asked(pc)[pc.i] == b;
    assert Holds(pc)[|Holds(pc)| - 1] == x;
    NotSame(pc.large, x);
    if s.blocks[b].owner != Some(x) {
      BacksOff(s, t, pc.large, pc.bs, pc.i, x, Again);
      Moves(s, t, Release(pc.bs, [x] + Seqs(pc.large), Again));
    } else {
      CalmWhenPointed(s, b, x);
      if pc.large.None? {
        var pc1 := Loop(pc.bs, pc.i + 1, Some(x));
        assert ThreadOk(t, pc1, s.blocks, s.sets) by { FirstIn(s, t, pc); }
        Moves(s, t, pc1);
      } else {
        var pc1 := Both(pc.bs, pc.i, pc.large.value, x);
        assert Holds(pc1) == Holds(pc);
        Moves(s, t, pc1);
      }
    }
  }

  /** The first block's set becomes the one being built. */
  lemma FirstIn(s: State, t: Tid, pc: Pc)
    requires pc.Tested? && pc.large.None? && ThreadOk(t, pc, s.blocks, s.sets)
    requires Calm(s.sets[pc.small].stage) && s.blocks[pc.bs[pc.i]].owner == Some(pc.small)
    ensures ThreadOk(t, Loop(pc.bs, pc.i + 1, Some(pc.small)), s.blocks, s.sets)
  {
    hide Shaped;
  }

  /** A set that a block points to is not done with. */
  lemma CalmWhenPointed(s: State, b: Bid, x: Sid)
    requires SetsOk(s) && BlocksOk(s) && b < |s.blocks| && x < |s.sets| && s.blocks[b].owner == Some(x)
    ensures s.sets[x].list != [] && s.sets[x].stage != Done && s.sets[x].stage != Dead
  {
    hide SetsOk, BlocksOk, IoOk, Settled, AllDebited;
    Listed(s, b, x);
    SetAt(s, x);
  }

  // ---- merging ----

  lemma {:induction false} SpliceMembers(l: seq<Bid>, s: seq<Bid>, blocks: seq<Block>)
    requires InRange(l, |blocks|) && InRange(s, |blocks|)
    ensures |Splice(l, s, blocks)| == |l| + |s|
    ensures forall b :: b in Splice(l, s, blocks) <==> b in l || b in s
    ensures InRange(Splice(l, s, blocks), |blocks|)
  {
    hide Front;
    var p, q := Front(l, blocks), Front(s, blocks);
    assert l == l[..p] + l[p..] && s == s[..q] + s[q..];
    var m := Splice(l, s, blocks);
    forall k | 0 <= k < |m|
      ensures m[k] < |blocks|
    {
      assert m[k] in m;
      if m[k] in l {
        var j :| 0 <= j < |l| && l[j] == m[k];
      } else {
        var j :| 0 <= j < |s| && s[j] == m[k];
      }
    }
  }

  lemma {:induction false} SpliceDistinct(l: seq<Bid>, s: seq<Bid>, blocks: seq<Block>)
    requires InRange(l, |blocks|) && InRange(s, |blocks|) && Distinct(l) && Distinct(s)
    requires forall b :: b in l ==> b !in s
    ensures Distinct(Splice(l, s, blocks))
  {
    hide Front;
    var p, q := Front(l, blocks), Front(s, blocks);
    var m := Splice(l, s, blocks);
    forall i, j | 0 <= i < j < |m|
      ensures m[i] != m[j]
    {
      PlaceOf(l, s, p, q, i);
      PlaceOf(l, s, p, q, j);
    }
  }

  /** Where the k-th entry of a merged list comes from. */
  function Place(l: nat, p: nat, q: nat, k: nat): (bool, int)
  {
    if k < p then (true, k)
    else if k < p + q then (false, k - p)
    else if k < q + l then (true, k - q)
    else (false, k - l)
  }

  lemma PlaceOf(l: seq<Bid>, s: seq<Bid>, p: nat, q: nat, k: nat)
    requires p <= |l| && q <= |s| && k < |l| + |s|
    ensures var w := Place(|l|, p, q, k);
            && 0 <= w.1 < (if w.0 then |l| else |s|)
            && (l[..p] + s[..q] + l[p..] + s[q..])[k] == (if w.0 then l[w.1] else s[w.1])
            && (if w.0 then l[w.1] in l else s[w.1] in s)
  {
  }

  /** The spliced list keeps the clean blocks last. */
  lemma {:induction false} SpliceDirtyFirst(l: seq<Bid>, s: seq<Bid>, blocks: seq<Block>)
    requires InRange(l, |blocks|) && InRange(s, |blocks|)
    requires DirtyFirst(l, blocks) && DirtyFirst(s, blocks)
    ensures InRange(Splice(l, s, blocks), |blocks|)
    ensures DirtyFirst(Splice(l, s, blocks), blocks)
  {
    SpliceMembers(l, s, blocks);
    var p, q := Front(l, blocks), Front(s, blocks);
    var m := Splice(l, s, blocks);
    forall k | 0 <= k < |m|
      ensures blocks[m[k]].dirty <==> k < p + q
    {
      PlaceOf(l, s, p, q, k);
    }
  }

  predicate Merging(s: State, t: Tid, pc: Pc, x: Sid, y: Sid) {
    && Inv(s) && PcTyped(pc, |s.blocks|, |s.sets|) && t < |s.threads| && pc == s.threads[t] && pc.Both?
    && (if Swaps(s.sets[Holds(pc)[0]], s.sets[Holds(pc)[1]]) then y == pc.small && x == pc.first
        else y == pc.first && x == pc.small)
  }

  /** What a merge of x into y finds. */
  predicate Mergeable(s: State, t: Tid, x: Sid, y: Sid) {
    && MergeRanges(s, x, y) && x != y
    && SetOk(x, s.sets[x], s.blocks) && SetOk(y, s.sets[y], s.blocks)
    && Calm(s.sets[x].stage) && Calm(s.sets[y].stage) && Own(x, t, s.sets) && Own(y, t, s.sets)
    && s.sets[x].list != [] && s.sets[y].list != []
    && Shaped(s.sets[x], s.blocks) && Shaped(s.sets[y], s.blocks)
    && (s.sets[y].stage == Open ==> s.sets[x].stage == Open)
    && (forall b :: b in s.sets[x].list ==>
          b !in s.sets[y].list && b < |s.blocks| && s.blocks[b].owner == Some(x) && s.blocks[b].io == Idle)
  }

  lemma MergeFacts(s: State, t: Tid, pc: Pc, x: Sid, y: Sid)
    requires Merging(s, t, pc, x, y)
    ensures Mergeable(s, t, x, y) && ThreadOk(t, pc, s.blocks, s.sets)
  {
    hide SetsOk, BlocksOk, ThreadsOk, InTurn, WorkerOk, CountsOk, Shaped, IoOk, Settled, AllDebited, Distinct;
    ThreadAt(s, t);
    assert Holds(pc)[0] == pc.first && Holds(pc)[1] == pc.small;
    assert Asked(pc)[pc.i] == pc.bs[pc.i];
    assert x != y by {
      assert Distinct(Holds(pc));
      assert pc.first != pc.small by { DistinctPair(Holds(pc)); }
    }
    SetAt(s, x);
    SetAt(s, y);
    NotEmpty(s, t, pc.bs, pc.i, pc.first);
    Listed(s, pc.bs[pc.i], pc.small);
    assert BitsOk(s.sets[x]) && BitsOk(s.sets[y]);
    forall b | b in s.sets[x].list
      ensures b !in s.sets[y].list && b < |s.blocks| && s.blocks[b].owner == Some(x) && s.blocks[b].io == Idle
    {
      var k :| 0 <= k < |s.sets[x].list| && s.sets[x].list[k] == b;
      assert s.blocks[b].owner == Some(x);
      Listed(s, b, y);
      CalmIsIdle(s, b, x);
    }
  }

  lemma DistinctPair(ids: seq<nat>)
    requires Distinct(ids) && |ids| == 2
    ensures ids[0] != ids[1]
  {
  }

  predicate MergeRanges(s: State, x: Sid, y: Sid) {
    && x < |s.sets| && y < |s.sets|
    && InRange(s.sets[x].list, |s.blocks|) && InRange(s.sets[y].list, |s.blocks|)
  }

  lemma MergeSets(s: State, t: Tid, pc: Pc, r: State, x: Sid, y: Sid)
    requires SetsOk(s) && Mergeable(s, t, x, y) && t < |s.threads| && pc.Both? && r == MergedState(s, t, pc, x, y)
    ensures SetsOk(r) && Shaped(r.sets[y], r.blocks)
  {
    hide SetsOk, Splice, SetOk, Shaped;
    MergeOthers(s, t, pc, r, x, y);
    hide Mergeable;
    MergeTwo(s, t, pc, r, x, y);
    AllSets(r, {x, y});
  }

  lemma MergeOthers(s: State, t: Tid, pc: Pc, r: State, x: Sid, y: Sid)
    requires SetsOk(s) && Mergeable(s, t, x, y) && t < |s.threads| && pc.Both? && r == MergedState(s, t, pc, x, y)
    ensures |r.sets| == |s.sets|
    ensures forall z :: 0 <= z < |s.sets| && z !in {x, y} ==> SetOk(z, r.sets[z], r.blocks)
  {
    hide SetsOk, Splice, SetOk, Shaped;
    OtherSetsKeep(s, r, {x, y});
  }

  lemma MergedParts(s: State, t: Tid, pc: Pc, r: State, x: Sid, y: Sid)
    requires MergeRanges(s, x, y) && x != y && t < |s.threads| && pc.Both? && r == MergedState(s, t, pc, x, y)
    ensures |r.sets| == |s.sets| && |r.threads| == |s.threads|
    ensures r.blocks == Repointed(s.blocks, s.sets[x].list, y)
    ensures r.sets[x] == s.sets[x].(list := [], size := 0, dirty := false)
    ensures r.sets[y] == s.sets[y].(list := Splice(s.sets[y].list, s.sets[x].list, s.blocks),
                                    size := s.sets[y].size + s.sets[x].size)
    ensures forall z :: 0 <= z < |s.sets| ==> r.sets[z].dirtying == s.sets[z].dirtying
    ensures r.threads == s.threads[t := Merged(pc.bs, pc.i, y, x)]
  {
    hide Splice;
  }

  lemma MergeTwo(s: State, t: Tid, pc: Pc, r: State, x: Sid, y: Sid)
    requires Mergeable(s, t, x, y) && t < |s.threads| && pc.Both? && r == MergedState(s, t, pc, x, y)
    ensures SetOk(x, r.sets[x], r.blocks) && SetOk(y, r.sets[y], r.blocks) && Shaped(r.sets[y], r.blocks)
  {
    hide Splice, SetOk, Shaped, MergedState;
    MergedParts(s, t, pc, r, x, y);
    EmptiedOk(x, s.sets[x], s.blocks, r.blocks);
    MergedOk(s, r.blocks, x, y, Splice(s.sets[y].list, s.sets[x].list, s.blocks));
  }

  lemma EmptiedOk(x: Sid, st: BlockSet, blocks: seq<Block>, after: seq<Block>)
    requires SetOk(x, st, blocks) && Calm(st.stage)
    ensures SetOk(x, st.(list := [], size := 0, dirty := false), after)
  {
  }

  lemma MergedOk(s: State, after: seq<Block>, x: Sid, y: Sid, m: seq<Bid>)
    requires x < |s.sets| && y < |s.sets| && x != y
    requires SetOk(x, s.sets[x], s.blocks) && SetOk(y, s.sets[y], s.blocks)
    requires Calm(s.sets[x].stage) && Calm(s.sets[y].stage) && s.sets[y].list != [] && s.sets[y].dirtying.Some?
    requires Shaped(s.sets[x], s.blocks) && Shaped(s.sets[y], s.blocks)
    requires s.sets[y].stage == Open ==> s.sets[x].stage == Open
    requires forall b :: b in s.sets[x].list ==> b !in s.sets[y].list
    requires m == Splice(s.sets[y].list, s.sets[x].list, s.blocks)
    requires after == Repointed(s.blocks, s.sets[x].list, y)
    ensures var st := s.sets[y].(list := m, size := s.sets[y].size + s.sets[x].size);
            SetOk(y, st, after) && Shaped(st, after)
  {
    hide Splice, Distinct, DirtyFirst;
    var large, small := s.sets[y], s.sets[x];
    var st := large.(list := m, size := large.size + small.size);
    SpliceMembers(large.list, small.list, s.blocks);
    SpliceDistinct(large.list, small.list, s.blocks);
    SpliceDirtyFirst(large.list, small.list, s.blocks);
    forall k | 0 <= k < |m|
      ensures after[m[k]].owner == Some(y) && after[m[k]].io == Idle && !after[m[k]].debited
      ensures large.stage == Open ==> !after[m[k]].dirty
    {
      var b := m[k];
      assert b in m;
      if b in large.list {
        var j :| 0 <= j < |large.list| && large.list[j] == b;
      } else {
        var j :| 0 <= j < |small.list| && small.list[j] == b;
      }
    }
    assert forall b :: 0 <= b < |after| ==> after[b].dirty == s.blocks[b].dirty;
    DirtyFirstFrame(m, s.blocks, after);
  }

  lemma DirtyFirstFrame(list: seq<Bid>, blocks: seq<Block>, after: seq<Block>)
    requires InRange(list, |blocks|) && |after| == |blocks| && DirtyFirst(list, blocks)
    requires forall b :: 0 <= b < |after| ==> after[b].dirty == blocks[b].dirty
    ensures DirtyFirst(list, after)
  {
  }

  lemma InvParts(s: State)
    requires Inv(s)
    ensures SetsOk(s) && BlocksOk(s) && ThreadsOk(s) && HeldsOk(s) && InTurn(s) && WorkerOk(s) && CountsOk(s)
  {
    hide SetsOk, BlocksOk, ThreadsOk, HeldsOk, InTurn, WorkerOk, CountsOk;
  }

  lemma MergeThread(s: State, t: Tid, pc: Pc, r: State, x: Sid, y: Sid)
    requires Merging(s, t, pc, x, y) && Mergeable(s, t, x, y) && r == MergedState(s, t, pc, x, y)
    requires Shaped(r.sets[y], r.blocks)
    ensures ThreadsOk(r)
  {
    hide BlocksOk, ThreadsOk, HeldsOk, InTurn, WorkerOk, CountsOk, SetsOk, Splice, SetOk, Shaped, Inv, ThreadOk;
    hide SameForOwners, Joined;
    InvParts(s);
    MergeJoins(s, t, pc, r, x, y);
    MergeOwners(s, t, pc, r, x, y);
    OtherThreadsKeep(s, r, t);
    assert ThreadOk(t, r.threads[t], r.blocks, r.sets) by {
      IsMerged(r, t, pc.bs, pc.i, y, x);
    }
    AllThreads(r, t);
  }

  lemma MergeOwners(s: State, t: Tid, pc: Pc, r: State, x: Sid, y: Sid)
    requires Mergeable(s, t, x, y) && t < |s.threads| && pc.Both? && r == MergedState(s, t, pc, x, y)
    ensures SameForOwners(s, r, t)
  {
    hide Splice, SetOk, Shaped;
  }

  lemma MergeJoins(s: State, t: Tid, pc: Pc, r: State, x: Sid, y: Sid)
    requires Merging(s, t, pc, x, y) && MergeRanges(s, x, y) && r == MergedState(s, t, pc, x, y)
    ensures pc.i < |pc.bs| && InRange(pc.bs, |r.blocks|) && Joined(pc.bs, pc.i + 1, r.blocks, y)
  {
    hide BlocksOk, ThreadsOk, HeldsOk, InTurn, WorkerOk, CountsOk, SetsOk, Splice, SetOk, Shaped, Inv, ThreadOk;
    InvParts(s);
    ThreadAt(s, t);
    BothFacts(s, t, pc);
    forall j | 0 <= j < pc.i + 1 && j < |pc.bs|
      ensures r.blocks[pc.bs[j]].owner == Some(y)
    {
      Listed(s, pc.bs[j], x);
    }
  }

  lemma BothFacts(s: State, t: Tid, pc: Pc)
    requires pc.Both? && ThreadOk(t, pc, s.blocks, s.sets)
    ensures Holds(pc)[0] == pc.first && Holds(pc)[1] == pc.small && pc.first != pc.small
    ensures pc.i < |pc.bs| && InRange(pc.bs, |s.blocks|) && s.blocks[pc.bs[pc.i]].owner == Some(pc.small)
    ensures forall j :: 0 <= j < pc.i ==> s.blocks[pc.bs[j]].owner == Some(pc.first)
  {
    hide Shaped;
    DistinctPair(Holds(pc));
  }

  lemma IsMerged(r: State, t: Tid, bs: seq<Bid>, i: nat, y: Sid, x: Sid)
    requires InRange(bs, |r.blocks|) && i < |bs| && x != y && Own(x, t, r.sets) && Own(y, t, r.sets)
    requires Calm(r.sets[x].stage) && Calm(r.sets[y].stage) && r.sets[x].list == []
    requires Shaped(r.sets[y], r.blocks) && Joined(bs, i + 1, r.blocks, y)
    ensures ThreadOk(t, Merged(bs, i, y, x), r.blocks, r.sets)
  {
    hide Shaped, Joined;
  }

  lemma MergeBlocks(s: State, t: Tid, pc: Pc, r: State, x: Sid, y: Sid)
    requires SetsOk(s) && BlocksOk(s) && Mergeable(s, t, x, y) && t < |s.threads| && pc.Both?
    requires r == MergedState(s, t, pc, x, y)
    ensures BlocksOk(r)
  {
    hide SetsOk, Splice, SetOk, Shaped;
    SpliceMembers(s.sets[y].list, s.sets[x].list, s.blocks);
    forall c | 0 <= c < |r.blocks|
      ensures BlockOk(c, r.blocks[c], r.sets)
    {
      assert BlockOk(c, s.blocks[c], s.sets);
      Listed(s, c, x);
    }
  }

  lemma MergeHolds(s: State, t: Tid, pc: Pc, r: State, x: Sid, y: Sid)
    requires HeldsOk(s) && MergeRanges(s, x, y) && t < |s.threads| && pc == s.threads[t] && pc.Both?
    requires (x == pc.first && y == pc.small) || (x == pc.small && y == pc.first)
    requires x != y && r == MergedState(s, t, pc, x, y)
    ensures HeldsOk(r)
  {
    hide MergedState, HeldsOk, MergeRanges;
    MergedParts(s, t, pc, r, x, y);
    assert Holds(pc) == [pc.first, pc.small] && Holds(r.threads[t]) == [y, x];
    SameHolds(s, r, t);
  }

  lemma MergeQuiet(s: State, t: Tid, pc: Pc, r: State, x: Sid, y: Sid)
    requires CountsOk(s) && Mergeable(s, t, x, y) && t < |s.threads| && pc.Both?
    requires r == MergedState(s, t, pc, x, y)
    ensures Quiet(s, r) && r.nrDirty == CountDirty(r.blocks)
  {
    hide Splice, Shaped, SetOk, CountsOk, CountDirty;
    CountDirtyFrame(s.blocks, r.blocks);
    DirtyCount(s);
  }

  lemma CalmIsIdle(s: State, b: Bid, x: Sid)
    requires x < |s.sets| && SetOk(x, s.sets[x], s.blocks) && b in s.sets[x].list && Calm(s.sets[x].stage)
    ensures b < |s.blocks| && s.blocks[b].io == Idle
  {
    var list := s.sets[x].list;
    var k :| 0 <= k < |list| && list[k] == b;
  }

  lemma MergeDiffers(s: State, t: Tid, x: Sid, y: Sid)
    requires Mergeable(s, t, x, y)
    ensures MergeRanges(s, x, y) && x != y
  {
    hide SetOk, Shaped;
  }

  lemma MergingParts(s: State, t: Tid, pc: Pc, x: Sid, y: Sid)
    requires Merging(s, t, pc, x, y)
    ensures Inv(s) && t < |s.threads| && pc == s.threads[t] && pc.Both?
    ensures (x == pc.first && y == pc.small) || (x == pc.small && y == pc.first)
  {
    hide Inv;
  }

  lemma MergedKeeps(s: State, t: Tid, pc: Pc, x: Sid, y: Sid)
    requires Merging(s, t, pc, x, y) && MergeRanges(s, x, y)
    ensures Inv(MergedState(s, t, pc, x, y))
  {
    hide BlocksOk, ThreadsOk, HeldsOk, InTurn, WorkerOk, CountsOk, SetsOk, Splice, SetOk, Shaped, ThreadOk, Inv;
    hide Quiet, CountDirty, Mergeable, Merging;
    MergeFacts(s, t, pc, x, y);
    MergingParts(s, t, pc, x, y);
    MergeDiffers(s, t, x, y);
    InvParts(s);
    var r := MergedState(s, t, pc, x, y);
    MergeSets(s, t, pc, r, x, y);
    MergeThread(s, t, pc, r, x, y);
    MergeBlocks(s, t, pc, r, x, y);
    MergeHolds(s, t, pc, r, x, y);
    MergeQuiet(s, t, pc, r, x, y);
    QuietKeeps(s, r);
  }

  lemma MergeKeeps(s: State, t: Tid, pc: Pc, r: State)
    requires Inv(s) && Typed(s) && t < |s.threads| && pc == s.threads[t] && pc.Both?
    requires Merge(s, t, pc) == Some(r)
    ensures Inv(r)
  {
    hide Inv, Splice, SetOk, Shaped, ThreadOk, Merge, Mergeable, MergedState;
    var x, y := MergeCases(s, t, pc, r);
    MergeFacts(s, t, pc, x, y);
    if s.sets[x].size + s.sets[y].size > SET_LIMIT {
      OverLimitKeeps(s, t, pc, x, y);
    } else {
      MergedKeeps(s, t, pc, x, y);
    }
  }

  /** x is the set merged away and y the one kept; nothing moves if both are too large together. */
  lemma MergeCases(s: State, t: Tid, pc: Pc, r: State) returns (x: Sid, y: Sid)
    requires Inv(s) && Typed(s) && t < |s.threads| && pc == s.threads[t] && pc.Both?
    requires Merge(s, t, pc) == Some(r)
    ensures Merging(s, t, pc, x, y) && MergeRanges(s, x, y)
    ensures r == if s.sets[x].size + s.sets[y].size > SET_LIMIT
                 then At(s, t, Release(pc.bs, [x, y], ForSync(s.sets[y].dirtySeq)))
                 else MergedState(s, t, pc, x, y)
  {
    hide Inv, Splice;
    assert Holds(pc)[0] == pc.first && Holds(pc)[1] == pc.small;
    var swap := Swaps(s.sets[pc.first], s.sets[pc.small]);
    y := if swap then pc.small else pc.first;
    x := if swap then pc.first else pc.small;
  }

  lemma OverLimitKeeps(s: State, t: Tid, pc: Pc, x: Sid, y: Sid)
    requires Merging(s, t, pc, x, y) && Mergeable(s, t, x, y)
    ensures Inv(At(s, t, Release(pc.bs, [x, y], ForSync(s.sets[y].dirtySeq))))
  {
    hide BlocksOk, ThreadsOk, HeldsOk, InTurn, WorkerOk, CountsOk, SetsOk, SetOk, Shaped, ThreadOk, Inv;
    var pc1 := Release(pc.bs, [x, y], ForSync(s.sets[y].dirtySeq));
    assert Asked(pc) == pc.bs;
    IsBackingOff(s, t, pc.bs, x, y, pc1.next);
    assert Holds(pc) == [pc.first, pc.small];
    Moves(s, t, pc1);
  }

  lemma IsBackingOff(s: State, t: Tid, bs: seq<Bid>, x: Sid, y: Sid, next: After)
    requires InRange(bs, |s.blocks|) && bs != [] && x != y && Own(x, t, s.sets) && Own(y, t, s.sets)
    requires Shaped(s.sets[x], s.blocks) && Shaped(s.sets[y], s.blocks) && next.ForSync?
    ensures ThreadOk(t, Release(bs, [x, y], next), s.blocks, s.sets)
  {
    hide Shaped;
  }

  lemma DropSmallKeeps(s: State, t: Tid, pc: Pc, r: State)
    requires Inv(s) && Typed(s) && t < |s.threads| && pc == s.threads[t] && pc.Merged?
    requires DropSmall(s, t, pc) == Some(r)
    ensures Inv(r)
  {
    hide SetsOk, BlocksOk, ThreadsOk, InTurn, WorkerOk, CountsOk, Shaped, IoOk, BitsOk, AllDebited, HeldsOk;
    ThreadAt(s, t);
    var x := pc.small;
    assert Holds(pc)[0] == pc.first && Holds(pc)[1] == x;
    assert x != pc.first by { DistinctPair(Holds(pc)); }
    SetAt(s, x);
    UnlockedOk(x, s.sets[x], s.blocks);
    var pc1 := Loop(pc.bs, pc.i + 1, Some(pc.first));
    assert ThreadOk(t, pc1, r.blocks, r.sets);
    BitKeeps(s, t, x, None, pc1, r);
  }

  // ---- marking, committing, ending ----

  lemma MarkKeeps(s: State, t: Tid, pc: Pc, r: State)
    requires Inv(s) && Typed(s) && t < |s.threads| && pc == s.threads[t] && pc.Mark?
    requires MarkOne(s, t, pc) == Some(r)
    ensures Inv(r)
  {
    hide SetsOk, BlocksOk, ThreadsOk, InTurn, WorkerOk, CountsOk, IoOk, BitsOk, AllDebited, HeldsOk, Settled, Distinct;
    ThreadAt(s, t);
    var x, k := pc.first, pc.k;
    assert x == Holds(pc)[0];
    var st := s.sets[x];
    if k == 0 || s.blocks[st.list[k - 1]].dirty {
      assert Marking(st, 0, s.blocks) by {
        forall j | 0 <= j < |st.list|
          ensures s.blocks[st.list[j]].dirty
        {
          if j < k {
            assert st.list[..k][j] == st.list[j] && st.list[..k][k - 1] == st.list[k - 1];
          }
        }
      }
      Moves(s, t, Commit(pc.bs, x));
    } else {
      MarkedKeeps(s, t, pc, r);
    }
  }

  /** The state after the k-th block was marked dirty. */
  function MarkedState(s: State, t: Tid, bs: seq<Bid>, x: Sid, k: nat): State
    requires t < |s.threads| && x < |s.sets| && 0 < k <= |s.sets[x].list| && s.sets[x].list[k - 1] < |s.blocks|
  {
    var b := s.sets[x].list[k - 1];
    At(WithBlock(s, b, s.blocks[b].(dirty := true)).(nrDirty := s.nrDirty + 1), t, Mark(bs, x, k - 1))
  }

  lemma MarkedKeeps(s: State, t: Tid, pc: Pc, r: State)
    requires Inv(s) && Typed(s) && t < |s.threads| && pc == s.threads[t] && pc.Mark?
    requires pc.first == Holds(pc)[0] && 0 < pc.k <= |s.sets[pc.first].list|
    requires !s.blocks[s.sets[pc.first].list[pc.k - 1]].dirty
    requires MarkOne(s, t, pc) == Some(r)
    ensures Inv(r)
  {
    hide SetsOk, BlocksOk, ThreadsOk, InTurn, WorkerOk, CountsOk, HeldsOk, ThreadOk, Marking, Joined, Inv, SetOk;
    InvParts(s);
    var x, k := pc.first, pc.k;
    assert r == MarkedState(s, t, pc.bs, x, k);
    ThreadAt(s, t);
    MarkFacts(s, t, pc);
    SetAt(s, x);
    MarkingFacts(x, s.sets[x], k, s.blocks);
    MarkedSets(s, t, pc.bs, x, k);
    MarkedThreads(s, t, pc, x, k);
    MarkedCounts(s, t, pc.bs, x, k);
    assert HeldsOk(r) by { SameHolds(s, r, t); }
    assert forall u :: 0 <= u < |s.threads| && r.threads[u].SeenSeq? ==> r.threads[u] == s.threads[u];
    QuietKeeps(s, r);
  }

  lemma MarkingFacts(x: Sid, st: BlockSet, k: nat, blocks: seq<Block>)
    requires SetOk(x, st, blocks) && Marking(st, k, blocks) && 0 < k
    ensures k <= |st.list| && Calm(st.stage) && InRange(st.list, |blocks|)
    ensures var bl := blocks[st.list[k - 1]]; bl.owner == Some(x) && bl.io == Idle && !bl.debited
  {
  }

  lemma MarkedSets(s: State, t: Tid, bs: seq<Bid>, x: Sid, k: nat)
    requires SetsOk(s) && BlocksOk(s) && t < |s.threads| && x < |s.sets| && s.sets[x].dirtying.Some?
    requires SetOk(x, s.sets[x], s.blocks) && 0 < k <= |s.sets[x].list| && Calm(s.sets[x].stage)
    requires var b := s.sets[x].list[k - 1];
             b < |s.blocks| && s.blocks[b].owner == Some(x) && s.blocks[b].io == Idle && !s.blocks[b].debited
    ensures SetsOk(MarkedState(s, t, bs, x, k)) && BlocksOk(MarkedState(s, t, bs, x, k))
  {
    hide SetsOk, BlocksOk;
    var r := MarkedState(s, t, bs, x, k);
    var b := s.sets[x].list[k - 1];
    OtherSetsKeep(s, r, {x});
    assert SetOk(x, r.sets[x], r.blocks);
    AllSets(r, {x});
    OneBlock(s, r, b, r.blocks[b]);
  }

  lemma MarkedThreads(s: State, t: Tid, pc: Pc, x: Sid, k: nat)
    requires SetsOk(s) && ThreadsOk(s) && t < |s.threads| && pc == s.threads[t] && pc.Mark? && pc.first == x
    requires PcTyped(pc, |s.blocks|, |s.sets|) && Asked(pc) == pc.bs && Own(x, t, s.sets)
    requires Marking(s.sets[x], k, s.blocks) && Joined(pc.bs, |pc.bs|, s.blocks, x)
    requires SetOk(x, s.sets[x], s.blocks) && 0 < k <= |s.sets[x].list|
    requires var b := s.sets[x].list[k - 1]; b < |s.blocks| && s.blocks[b].owner == Some(x)
    ensures ThreadsOk(MarkedState(s, t, pc.bs, x, k))
  {
    hide SetsOk, ThreadsOk, ThreadOk, Marking, SetOk;
    var r := MarkedState(s, t, pc.bs, x, k);
    assert SameForOwners(s, r, t);
    OtherThreadsKeep(s, r, t);
    assert Distinct(s.sets[x].list) by { SetDistinct(x, s.sets[x], s.blocks); }
    MarkedOne(s.sets[x], k, s.blocks, r.blocks);
    IsMarking(r, t, pc.bs, x, k - 1);
    AllThreads(r, t);
  }

  lemma SetDistinct(x: Sid, st: BlockSet, blocks: seq<Block>)
    requires SetOk(x, st, blocks)
    ensures Distinct(st.list)
  {
  }

  lemma MarkedCounts(s: State, t: Tid, bs: seq<Bid>, x: Sid, k: nat)
    requires CountsOk(s) && t < |s.threads| && x < |s.sets| && 0 < k <= |s.sets[x].list|
    requires var b := s.sets[x].list[k - 1];
             b < |s.blocks| && s.blocks[b].io == Idle && !s.blocks[b].debited && !s.blocks[b].dirty
    ensures var r := MarkedState(s, t, bs, x, k); Quiet(s, r) && r.nrDirty == CountDirty(r.blocks)
  {
    hide CountsOk, CountDirty;
    var r := MarkedState(s, t, bs, x, k);
    var b := s.sets[x].list[k - 1];
    DirtyCount(s);
    CountOne(s.blocks, b, r.blocks[b]);
  }

  lemma MarkFacts(s: State, t: Tid, pc: Pc)
    requires ThreadOk(t, pc, s.blocks, s.sets) && pc.Mark?
    ensures PcTyped(pc, |s.blocks|, |s.sets|) && pc.bs == Asked(pc)
    ensures Own(pc.first, t, s.sets) && Marking(s.sets[pc.first], pc.k, s.blocks)
    ensures Joined(pc.bs, |pc.bs|, s.blocks, pc.first)
  {
  }

  lemma IsMarking(r: State, t: Tid, bs: seq<Bid>, x: Sid, k: nat)
    requires bs != [] && InRange(bs, |r.blocks|) && Own(x, t, r.sets) && Marking(r.sets[x], k, r.blocks)
    requires Joined(bs, |bs|, r.blocks, x)
    ensures ThreadOk(t, Mark(bs, x, k), r.blocks, r.sets)
  {
    hide Marking;
  }

  lemma MarkedOne(st: BlockSet, k: nat, blocks: seq<Block>, after: seq<Block>)
    requires Marking(st, k, blocks) && 0 < k <= |st.list| && Distinct(st.list)
    requires after == blocks[st.list[k - 1] := blocks[st.list[k - 1]].(dirty := true)]
    ensures Marking(st, k - 1, after)
  {
    var list := st.list;
    assert forall j :: 0 <= j < k ==> list[..k][j] == list[j];
    assert forall j :: 0 <= j < k - 1 ==> list[..k - 1][j] == list[j];
    assert forall j :: 0 <= j < |list| && j != k - 1 ==> list[j] != list[k - 1];
  }

  /** One listed block changes, but not its owner. */
  lemma OneBlock(s: State, r: State, b: Bid, bl: Block)
    requires BlocksOk(s) && b < |s.blocks| && bl.owner == s.blocks[b].owner && bl.owner.Some?
    requires r.blocks == s.blocks[b := bl] && |r.sets| == |s.sets|
    requires forall x :: 0 <= x < |s.sets| ==> r.sets[x].list == s.sets[x].list
    ensures BlocksOk(r)
  {
    forall c | 0 <= c < |r.blocks|
      ensures BlockOk(c, r.blocks[c], r.sets)
    {
      assert BlockOk(c, s.blocks[c], s.sets);
    }
  }

  lemma SameHolds(s: State, r: State, t: Tid)
    requires HeldsOk(s) && |r.sets| == |s.sets| && t < |s.threads| == |r.threads|
    requires forall x :: 0 <= x < |s.sets| ==> r.sets[x].dirtying == s.sets[x].dirtying
    requires forall u :: 0 <= u < |s.threads| && u != t ==> r.threads[u] == s.threads[u]
    requires forall x :: x in Holds(s.threads[t]) ==> x in Holds(r.threads[t])
    ensures HeldsOk(r)
  {
    forall x | 0 <= x < |r.sets|
      ensures Held(x, r.sets[x], r.threads)
    {
      assert Held(x, s.sets[x], s.threads);
    }
  }

  lemma CommitKeeps(s: State, t: Tid, pc: Pc, r: State)
    requires Inv(s) && Typed(s) && t < |s.threads| && pc == s.threads[t] && pc.Commit?
    requires CommitSet(s, t, pc) == Some(r)
    ensures Inv(r)
  {
    hide SetsOk, BlocksOk, ThreadsOk, InTurn, WorkerOk, CountsOk, HeldsOk, Marking, Joined, Reverse;
    ThreadAt(s, t);
    var x := pc.first;
    assert x == Holds(pc)[0];
    CommitFacts(s, t, pc, x);
    if s.sets[x].dirty {
      Moves(s, t, Modify(pc.bs, x));
    } else {
      FirstDirtied(s, t, pc, x);
    }
  }

  lemma CommitFacts(s: State, t: Tid, pc: Pc, x: Sid)
    requires SetsOk(s) && BlocksOk(s) && pc.Commit? && ThreadOk(t, pc, s.blocks, s.sets) && x == pc.first
    ensures x < |s.sets| && Own(x, t, s.sets) && s.sets[x].stage == (if s.sets[x].dirty then Pending else Open)
    ensures SetOk(x, s.sets[x], s.blocks) && !(!s.sets[x].dirty && s.sets[x].writeback)
  {
    hide SetsOk, BlocksOk, IoOk, Settled, AllDebited;
    SetAt(s, x);
    NotEmpty(s, t, pc.bs, |pc.bs|, x);
  }

  lemma FirstDirtied(s: State, t: Tid, pc: Pc, x: Sid)
    requires Inv(s) && t < |s.threads| && pc == s.threads[t] && pc.Commit? && x == pc.first
    requires x < |s.sets| && Own(x, t, s.sets) && s.sets[x].stage == Open && !s.sets[x].writeback
    requires SetOk(x, s.sets[x], s.blocks)
    ensures Inv(At(Pushed(s, x), t, Modify(pc.bs, x)))
  {
    hide SetsOk, BlocksOk, ThreadsOk, InTurn, WorkerOk, CountsOk, HeldsOk, SyncsOk, Inv, ThreadOk, SetOk;
    InvParts(s);
    ThreadAt(s, t);
    var r := At(Pushed(s, x), t, Modify(pc.bs, x));
    assert SetsOk(r) by {
      OtherSetsKeep(s, r, {x});
      assert SetOk(x, r.sets[x], r.blocks) by {
        assert Marking(s.sets[x], 0, s.blocks) by { CommitMarked(s, t, pc); }
        PushedOk(x, s.sets[x], s.blocks, s.dirtySeq, t);
      }
      AllSets(r, {x});
    }
    assert BlocksOk(r) by { SameLists(s, r); }
    assert HeldsOk(r) by { SameHolds(s, r, t); }
    assert ThreadsOk(r) by {
      assert SameForOwners(s, r, t);
      OtherThreadsKeep(s, r, t);
      assert ThreadOk(t, r.threads[t], r.blocks, r.sets) by { IsModifying(s, t, pc, x, r); }
      AllThreads(r, t);
    }
    PushTurn(s, x);
    PushWorker(s, x);
    PushCounts(s, x);
    assert InTurn(r) by { TurnSame(Pushed(s, x), r); }
    assert CountsOk(r) by { CountsSame(Pushed(s, x), r); }
    assert WorkerOk(r) by { WorkerSame(Pushed(s, x), r); }
    assert SyncsOk(r) by { SyncsSame(s, t, r); }
    AllParts(r);
  }

  lemma AllParts(r: State)
    requires SetsOk(r) && BlocksOk(r) && ThreadsOk(r) && HeldsOk(r)
    requires InTurn(r) && WorkerOk(r) && CountsOk(r) && SyncsOk(r)
    ensures Inv(r)
  {
    hide SetsOk, BlocksOk, ThreadsOk, HeldsOk, InTurn, WorkerOk, CountsOk, SyncsOk;
  }

  lemma SyncsSame(s: State, t: Tid, r: State)
    requires Inv(s) && t < |s.threads| == |r.threads| && r.threads == s.threads[t := r.threads[t]]
    requires !r.threads[t].SeenSeq? && r.writebackSeq == s.writebackSeq
    ensures SyncsOk(r)
  {
    hide SetsOk, BlocksOk, ThreadsOk, HeldsOk, InTurn, WorkerOk, CountsOk;
  }

  lemma CommitMarked(s: State, t: Tid, pc: Pc)
    requires pc.Commit? && ThreadOk(t, pc, s.blocks, s.sets)
    ensures pc.first < |s.sets| && Marking(s.sets[pc.first], 0, s.blocks)
  {
    hide Marking, Joined;
  }

  lemma PushedOk(x: Sid, st: BlockSet, blocks: seq<Block>, n: nat, t: Tid)
    requires SetOk(x, st, blocks) && st.stage == Open && st.dirtying == Some(t) && Marking(st, 0, blocks)
    ensures SetOk(x, st.(dirty := true, dirtySeq := n + 1, stage := Pending), blocks)
  {
  }

  lemma IsModifying(s: State, t: Tid, pc: Pc, x: Sid, r: State)
    requires pc.Commit? && ThreadOk(t, pc, s.blocks, s.sets) && x == pc.first && x < |s.sets|
    requires r.blocks == s.blocks && |r.sets| == |s.sets| && r.sets[x].stage == Pending
    requires r.sets[x].list == s.sets[x].list && r.sets[x].dirtying == s.sets[x].dirtying
    ensures ThreadOk(t, Modify(pc.bs, x), r.blocks, r.sets)
  {
  }

  lemma ReversePush(x: Sid, ids: seq<Sid>)
    ensures Reverse([x] + ids) == Reverse(ids) + [x]
  {
    assert ([x] + ids)[1..] == ids;
  }

  /** The state after a set took the next number and was pushed. */
  function Pushed(s: State, x: Sid): State
    requires x < |s.sets|
  {
    s.(sets := s.sets[x := s.sets[x].(dirty := true, dirtySeq := s.dirtySeq + 1, stage := Pending)],
       dirtySeq := s.dirtySeq + 1, llist := [x] + s.llist)
  }

  /** Taking the next number and pushing in one step keeps the order of the numbers. */
  lemma PushTurn(s: State, x: Sid)
    requires InTurn(s) && x < |s.sets| && s.sets[x].stage == Open
    ensures InTurn(Pushed(s, x))
  {
    hide Reverse;
    ReversePush(x, s.llist);
    assert Queue(Pushed(s, x)) == Queue(s) + [x];
    assert x !in Queue(s);
  }

  lemma PushWorker(s: State, x: Sid)
    requires InTurn(s) && WorkerOk(s) && x < |s.sets| && s.sets[x].stage == Open && !s.sets[x].writeback
    ensures WorkerOk(Pushed(s, x))
  {
    hide Distinct, InTurn;
    NotClaimed(s, x);
    if s.worker.Submitting? {
      assert AllFlying(s.worker.todo, Pushed(s, x).blocks, Pushed(s, x).sets);
    }
  }

  lemma NotClaimed(s: State, x: Sid)
    requires InTurn(s) && WorkerOk(s) && x < |s.sets| && s.sets[x].stage == Open
    ensures !Claims(s.worker, x)
  {
    hide Reverse;
    var q := Queue(s);
    if s.worker.Testing? || s.worker.Backing? {
      assert q[0] == s.worker.claim;
    }
  }

  lemma PushCounts(s: State, x: Sid)
    requires CountsOk(s) && x < |s.sets|
    ensures CountsOk(Pushed(s, x))
  {
    hide CountDirty, CountWriteback, CountCounted, SumSubmitted;
    SumFrame(s.sets, Pushed(s, x).sets);
  }

  lemma EndKeeps(s: State, t: Tid, pc: Pc, r: State)
    requires Inv(s) && Typed(s) && t < |s.threads| && pc == s.threads[t] && pc.Modify?
    requires End(s, t, pc) == Some(r)
    ensures Inv(r)
  {
    hide SetsOk, BlocksOk, ThreadsOk, InTurn, WorkerOk, CountsOk, IoOk, BitsOk, AllDebited, HeldsOk;
    ThreadAt(s, t);
    var x := pc.first;
    assert Asked(pc)[0] == pc.bs[0];
    assert s.blocks[pc.bs[0]].owner == Some(x);
    SetAt(s, x);
    UnlockedOk(x, s.sets[x], s.blocks);
    BitKeeps(s, t, x, None, Outside, r);
  }

  // ---- backing off ----

  lemma ReleaseKeeps(s: State, t: Tid, pc: Pc, r: State)
    requires Inv(s) && Typed(s) && t < |s.threads| && pc == s.threads[t] && pc.Release?
    requires ReleaseOne(s, t, pc) == Some(r)
    ensures Inv(r)
  {
    hide SetsOk, BlocksOk, ThreadsOk, InTurn, WorkerOk, CountsOk, HeldsOk, Inv, ThreadOk;
    InvParts(s);
    if pc.held == [] {
      assert ThreadOk(t, Wait(pc.bs, pc.next), s.blocks, s.sets) by { WaitOk(s, t, pc); }
      Moves(s, t, Wait(pc.bs, pc.next));
    } else {
      HeldAt(s, t, pc);
      var x := pc.held[0];
      assert x == Holds(pc)[0];
      var list := s.sets[x].list;
      if list != [] && !s.blocks[list[|list| - 1]].dirty {
        PopKeeps(s, t, pc, x, r);
      } else {
        UnlockKeeps(s, t, pc, x, r);
      }
    }
  }

  lemma WaitOk(s: State, t: Tid, pc: Pc)
    requires pc.Release? && PcTyped(pc, |s.blocks|, |s.sets|)
    ensures ThreadOk(t, Wait(pc.bs, pc.next), s.blocks, s.sets)
  {
  }

  lemma HeldAt(s: State, t: Tid, pc: Pc)
    requires ThreadsOk(s) && t < |s.threads| && pc == s.threads[t] && pc.Release? && pc.held != []
    ensures Own(pc.held[0], t, s.sets) && Shaped(s.sets[pc.held[0]], s.blocks)
    ensures PcTyped(pc, |s.blocks|, |s.sets|) && Distinct(pc.held)
    ensures forall k :: 0 <= k < |pc.held| ==> Own(pc.held[k], t, s.sets) && Shaped(s.sets[pc.held[k]], s.blocks)
  {
    hide Shaped, Distinct, PcTyped;
    ThreadAt(s, t);
  }

  /** After the walk stopped, all blocks left are dirty. */
  lemma UnlockKeeps(s: State, t: Tid, pc: Pc, x: Sid, r: State)
    requires Inv(s) && t < |s.threads| && pc == s.threads[t] && pc.Release? && pc.held != []
    requires x == pc.held[0] && x < |s.sets| && InRange(s.sets[x].list, |s.blocks|)
    requires var list := s.sets[x].list; list == [] || s.blocks[list[|list| - 1]].dirty
    requires r == At(WithSet(s, x, s.sets[x].(dirtying := None)), t, Release(pc.bs, pc.held[1..], pc.next))
    ensures Inv(r)
  {
    hide SetsOk, BlocksOk, ThreadsOk, InTurn, WorkerOk, CountsOk, HeldsOk, Inv, SetOk, ThreadOk, Shaped;
    InvParts(s);
    HeldAt(s, t, pc);
    var st := s.sets[x];
    SetAt(s, x);
    StoppedIsSettled(x, st, s.blocks);
    UnlockedOk(x, st, s.blocks);
    var pc1 := Release(pc.bs, pc.held[1..], pc.next);
    assert ThreadOk(t, pc1, r.blocks, r.sets) by {
      ThreadAt(s, t);
      OneLess(s, t, pc, x, r);
    }
    forall y | y in Holds(pc) && y != x
      ensures y in Holds(pc1)
    {
      var k :| 0 <= k < |pc.held| && pc.held[k] == y;
      assert pc1.held[k - 1] == y;
    }
    BitKeeps(s, t, x, None, pc1, r);
  }

  lemma StoppedIsSettled(x: Sid, st: BlockSet, blocks: seq<Block>)
    requires SetOk(x, st, blocks) && Shaped(st, blocks)
    requires st.list == [] || blocks[st.list[|st.list| - 1]].dirty
    ensures InRange(st.list, |blocks|) && Settled(st, blocks)
  {
  }

  lemma OneLess(s: State, t: Tid, pc: Pc, x: Sid, r: State)
    requires t < |s.threads| && pc.Release? && pc.held != [] && x == pc.held[0] && x < |s.sets|
    requires ThreadOk(t, pc, s.blocks, s.sets)
    requires r.blocks == s.blocks && r.sets == s.sets[x := s.sets[x].(dirtying := None)]
    ensures ThreadOk(t, Release(pc.bs, pc.held[1..], pc.next), r.blocks, r.sets)
  {
    hide Shaped;
    var pc1 := Release(pc.bs, pc.held[1..], pc.next);
    forall k | 0 <= k < |pc1.held|
      ensures pc1.held[k] < |r.sets|
      ensures Own(pc1.held[k], t, r.sets) && Shaped(r.sets[pc1.held[k]], r.blocks)
    {
      assert pc1.held[k] == pc.held[k + 1];
      assert pc.held[k + 1] != x;
    }
    assert Eyes(pc1) == Eyes(pc);
  }

  /** A block dropped on the way back never became dirty. */
  lemma PopKeeps(s: State, t: Tid, pc: Pc, x: Sid, r: State)
    requires Inv(s) && t < |s.threads| && pc == s.threads[t] && pc.Release? && pc.held != []
    requires x == pc.held[0] && x < |s.sets| && InRange(s.sets[x].list, |s.blocks|)
    requires var list := s.sets[x].list; list != [] && !s.blocks[list[|list| - 1]].dirty
    requires r == Popped(s, x)
    ensures Inv(r)
  {
    hide SetsOk, BlocksOk, ThreadsOk, InTurn, WorkerOk, CountsOk, HeldsOk, Inv, ThreadOk, SetOk, Shaped, CountDirty;
    InvParts(s);
    HeldAt(s, t, pc);
    var st := s.sets[x];
    var b := st.list[|st.list| - 1];
    SetAt(s, x);
    PopFacts(x, st, s.blocks);
    PopSet(x, st, s.blocks);
    assert SetsOk(r) by {
      OtherSetsKeep(s, r, {x});
      AllSets(r, {x});
    }
    assert BlocksOk(r) by { PopBlocks(s, r, x, b); }
    assert HeldsOk(r) by { SameHolds(s, r, t); }
    assert ThreadsOk(r) by {
      assert SameForOwners(s, r, t);
      OtherThreadsKeep(s, r, t);
      assert ThreadOk(t, r.threads[t], r.blocks, r.sets) by { PopThread(s, t, pc, r); }
      AllThreads(r, t);
    }
    DirtyCount(s);
    CountDirtyFrame(s.blocks, r.blocks);
    assert Quiet(s, r);
    QuietKeeps(s, r);
  }

  /** The state after the last block of a set was dropped. */
  function Popped(s: State, x: Sid): State
    requires x < |s.sets| && InRange(s.sets[x].list, |s.blocks|) && s.sets[x].list != []
  {
    var st := s.sets[x];
    var n := |st.list| - 1;
    var b := st.list[n];
    WithSet(WithBlock(s, b, s.blocks[b].(owner := None)), x, st.(list := st.list[..n], size := st.size - 1))
  }

  lemma PopFacts(x: Sid, st: BlockSet, blocks: seq<Block>)
    requires SetOk(x, st, blocks) && st.list != [] && !blocks[st.list[|st.list| - 1]].dirty
    ensures Calm(st.stage)
    ensures var bl := blocks[st.list[|st.list| - 1]]; bl.owner == Some(x) && bl.io == Idle && !bl.debited
  {
  }

  lemma PopSet(x: Sid, st: BlockSet, blocks: seq<Block>)
    requires SetOk(x, st, blocks) && Calm(st.stage) && Shaped(st, blocks) && st.dirtying.Some? && st.list != []
    ensures var n := |st.list| - 1;
            var after := st.(list := st.list[..n], size := st.size - 1);
            var b := st.list[n];
            SetOk(x, after, blocks[b := blocks[b].(owner := None)])
            && Shaped(after, blocks[b := blocks[b].(owner := None)])
  {
    var n := |st.list| - 1;
    var list := st.list[..n];
    assert forall k :: 0 <= k < n ==> list[k] == st.list[k] && st.list[k] != st.list[n];
  }

  lemma PopBlocks(s: State, r: State, x: Sid, b: Bid)
    requires SetsOk(s) && BlocksOk(s) && x < |s.sets| && s.sets[x].list != []
    requires b == s.sets[x].list[|s.sets[x].list| - 1] && b < |s.blocks| && s.blocks[b].owner == Some(x)
    requires s.blocks[b].io == Idle && !s.blocks[b].debited && !s.blocks[b].dirty
    requires r.blocks == s.blocks[b := s.blocks[b].(owner := None)] && |r.sets| == |s.sets|
    requires r.sets[x].list == s.sets[x].list[..|s.sets[x].list| - 1]
    requires forall y :: 0 <= y < |s.sets| && y != x ==> r.sets[y] == s.sets[y]
    ensures BlocksOk(r)
  {
    hide SetsOk;
    var n := |s.sets[x].list| - 1;
    forall c | 0 <= c < |r.blocks|
      ensures BlockOk(c, r.blocks[c], r.sets)
    {
      assert BlockOk(c, s.blocks[c], s.sets);
      if c != b && s.blocks[c].owner == Some(x) {
        var k :| 0 <= k < |s.sets[x].list| && s.sets[x].list[k] == c;
        assert r.sets[x].list[k] == c;
      }
    }
  }

  lemma PopThread(s: State, t: Tid, pc: Pc, r: State)
    requires ThreadsOk(s) && SetsOk(s) && t < |s.threads| && pc == s.threads[t] && pc.Release? && pc.held != []
    requires var x := pc.held[0];
             && x < |s.sets| && InRange(s.sets[x].list, |s.blocks|) && s.sets[x].list != []
             && Calm(s.sets[x].stage) && s.sets[x].dirtying.Some? && r == Popped(s, x)
    ensures ThreadOk(t, r.threads[t], r.blocks, r.sets)
  {
    hide SetsOk, ThreadsOk, IoOk, BitsOk, Settled;
    HeldAt(s, t, pc);
    var x := pc.held[0];
    SetAt(s, x);
    PopSet(x, s.sets[x], s.blocks);
    assert Shaped(r.sets[x], r.blocks);
    forall k | 0 <= k < |pc.held|
      ensures Own(pc.held[k], t, r.sets) && Shaped(r.sets[pc.held[k]], r.blocks)
    {
      var y := pc.held[k];
      assert Own(y, t, s.sets) && Shaped(s.sets[y], s.blocks);
      if y != x {
        SetAt(s, y);
        assert forall j :: 0 <= j < |s.sets[y].list| ==> s.blocks[s.sets[y].list[j]].owner == Some(y);
      }
    }
  }

  // ---- the rest ----

  lemma ResumeKeeps(s: State, t: Tid, pc: Pc, r: State)
    requires Inv(s) && Typed(s) && t < |s.threads| && pc == s.threads[t] && pc.Wait?
    requires Resume(s, t, pc) == Some(r)
    ensures Inv(r)
  {
    hide SetsOk, BlocksOk, ThreadsOk, InTurn, WorkerOk, CountsOk, HeldsOk;
    ThreadAt(s, t);
    Moves(s, t, r.threads[t]);
  }

  lemma DirtierKeeps(s: State, t: Tid, r: State)
    requires Inv(s) && Typed(s) && t < |s.threads| && DirtierStep(s, t) == Some(r)
    ensures Inv(r)
  {
    hide Inv, Typed, Fetch, TryLock, TestWriteback, CheckOwner, Merge, DropSmall, MarkOne, CommitSet, End;
    hide ReleaseOne, Resume;
    var pc := s.threads[t];
    match pc
    case Loop(_, _, _) => FetchKeeps(s, t, pc, r);
    case Lock(_, _, _, _) => TryLockKeeps(s, t, pc, r);
    case Locked(_, _, _, _) => TestKeeps(s, t, pc, r);
    case Tested(_, _, _, _) => CheckKeeps(s, t, pc, r);
    case Both(_, _, _, _) => MergeKeeps(s, t, pc, r);
    case Merged(_, _, _, _) => DropSmallKeeps(s, t, pc, r);
    case Mark(_, _, _) => MarkKeeps(s, t, pc, r);
    case Commit(_, _) => CommitKeeps(s, t, pc, r);
    case Modify(_, _) => EndKeeps(s, t, pc, r);
    case Release(_, _, _) => ReleaseKeeps(s, t, pc, r);
    case Wait(_, _) => ResumeKeeps(s, t, pc, r);
    case _ =>
  }

  lemma BeginKeeps(s: State, t: Tid, want: seq<Bid>)
    requires Inv(s) && t < |s.threads| && s.threads[t].Outside? && want != [] && InRange(want, |s.blocks|)
    ensures Inv(At(s, t, Loop(want, 0, None)))
  {
    hide SetsOk, BlocksOk, ThreadsOk, InTurn, WorkerOk, CountsOk, HeldsOk;
    Moves(s, t, Loop(want, 0, None));
  }

  lemma SyncKeeps(s: State, t: Tid, r: State)
    requires Inv(s) && t < |s.threads| && SyncStep(s, t) == Some(r)
    ensures Inv(r)
  {
    hide SetsOk, BlocksOk, ThreadsOk, InTurn, WorkerOk, CountsOk, HeldsOk;
    ThreadAt(s, t);
    Moves(s, t, r.threads[t]);
  }

  lemma FailKeeps(s: State, t: Tid, r: State)
    requires Inv(s) && Typed(s) && t < |s.threads| && FailStep(s, t) == Some(r)
    ensures Inv(r)
  {
    hide SetsOk, BlocksOk, ThreadsOk, InTurn, WorkerOk, CountsOk, HeldsOk, Typed;
    ThreadAt(s, t);
    Moves(s, t, Outside);
  }
}
