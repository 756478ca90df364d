/** What a step leaves alone when it touches few sets and blocks. */
module DirtyFrames {
  import opened Options
  import opened Tally
  import opened DirtySets
  import opened DirtyInvariant

  lemma SetFrame(x: Sid, st: BlockSet, blocks: seq<Block>, after: seq<Block>)
    requires SetOk(x, st, blocks) && |after| == |blocks|
    requires forall k :: 0 <= k < |st.list| ==> after[st.list[k]] == blocks[st.list[k]]
    ensures SetOk(x, st, after)
  {
    UnfinishedFrame(st.list, blocks, after);
  }

  lemma {:induction false} UnfinishedFrame(list: seq<Bid>, blocks: seq<Block>, after: seq<Block>)
    requires InRange(list, |blocks|) && |after| == |blocks|
    requires forall k :: 0 <= k < |list| ==> after[list[k]].io == blocks[list[k]].io
    ensures Unfinished(list, after) == Unfinished(list, blocks)
  {
    if list != [] {
      UnfinishedFrame(list[..|list| - 1], blocks, after);
    }
  }

  /** Sets outside X are untouched and so is every block of theirs. */
  lemma OtherSetsKeep(s: State, r: State, X: set<Sid>)
    requires SetsOk(s) && |r.blocks| == |s.blocks| && |r.sets| >= |s.sets|
    requires forall x :: 0 <= x < |s.sets| && x !in X ==> r.sets[x] == s.sets[x]
    requires forall b :: 0 <= b < |s.blocks| ==>
               r.blocks[b] == s.blocks[b] || s.blocks[b].owner.None? || s.blocks[b].owner.value in X
    ensures forall x :: 0 <= x < |s.sets| && x !in X ==> SetOk(x, r.sets[x], r.blocks)
  {
    hide IoOk, BitsOk, Settled, AllDebited, Distinct;
    forall x | 0 <= x < |s.sets| && x !in X
      ensures SetOk(x, r.sets[x], r.blocks)
    {
      var st := s.sets[x];
      assert SetOk(x, st, s.blocks);
      assert PointBack(st.list, s.blocks, x);
      SetFrame(x, st, s.blocks, r.blocks);
    }
  }

  /** A set as its owner may rely on it while others work. */
  predicate SameForOwner(st: BlockSet, after: BlockSet) {
    && after.dirtying == st.dirtying
    && if Calm(st.stage) || st.stage == Done then after.list == st.list && after.stage == st.stage
       else !Calm(after.stage)
  }

  predicate SameForOwners(s: State, r: State, t: Tid) {
    && |r.sets| >= |s.sets| && |r.blocks| == |s.blocks|
    && (forall x :: 0 <= x < |s.sets| && s.sets[x].dirtying.Some? && s.sets[x].dirtying != Some(t) ==>
          SameForOwner(s.sets[x], r.sets[x]))
    && (forall b :: 0 <= b < |s.blocks| ==>
          || (r.blocks[b].owner == s.blocks[b].owner && r.blocks[b].dirty == s.blocks[b].dirty)
          || s.blocks[b].owner.None?
          || (s.blocks[b].owner.value < |s.sets|
              && (s.sets[s.blocks[b].owner.value].dirtying == Some(t) || !Calm(s.sets[s.blocks[b].owner.value].stage))))
  }

  lemma InRangeMore(ids: seq<nat>, n: nat, m: nat)
    requires InRange(ids, n) && n <= m
    ensures InRange(ids, m)
  {
  }

  /** A held set keeps its shape for its owner. */
  lemma ShapedFrame(s: State, r: State, t: Tid, u: Tid, x: Sid)
    requires SetsOk(s) && SameForOwners(s, r, t) && u != t
    requires Own(x, u, s.sets)
    ensures Own(x, u, r.sets)
    ensures Shaped(s.sets[x], s.blocks) ==> Shaped(r.sets[x], r.blocks)
    ensures forall k: nat :: Calm(s.sets[x].stage) && Marking(s.sets[x], k, s.blocks) ==> Marking(r.sets[x], k, r.blocks)
  {
    hide IoOk, BitsOk, Settled, AllDebited, Distinct;
    var st := s.sets[x];
    assert SetOk(x, st, s.blocks);
    assert SameForOwner(st, r.sets[x]);
    if Calm(st.stage) {
      forall k | 0 <= k < |st.list|
        ensures r.blocks[st.list[k]].dirty == s.blocks[st.list[k]].dirty
      {
        assert s.blocks[st.list[k]].owner == Some(x);
      }
      forall k: nat | Marking(st, k, s.blocks)
        ensures Marking(r.sets[x], k, r.blocks)
      {
        assert forall j :: 0 <= j < k ==> st.list[..k][j] == st.list[j];
      }
    }
  }

  lemma JoinedFrame(s: State, r: State, t: Tid, u: Tid, x: Sid, bs: seq<Bid>, i: nat)
    requires SameForOwners(s, r, t) && u != t && Own(x, u, s.sets) && Calm(s.sets[x].stage)
    requires InRange(bs, |s.blocks|) && Joined(bs, i, s.blocks, x)
    ensures Joined(bs, i, r.blocks, x)
  {
    forall j | 0 <= j < i && j < |bs|
      ensures r.blocks[bs[j]].owner == Some(x)
    {
      assert s.blocks[bs[j]].owner == Some(x);
    }
  }

  lemma BuildingFrame(s: State, r: State, t: Tid, u: Tid, large: Option<Sid>, bs: seq<Bid>, i: nat)
    requires SetsOk(s) && SameForOwners(s, r, t) && u != t
    requires InRange(bs, |s.blocks|) && Building(large, bs, i, u, s.blocks, s.sets)
    ensures Building(large, bs, i, u, r.blocks, r.sets)
  {
    hide SetOk, Shaped, Marking;
    if large.Some? {
      ShapedFrame(s, r, t, u, large.value);
      JoinedFrame(s, r, t, u, large.value, bs, i);
    }
  }

  /** A thread that takes no part in a step keeps what it knows. */
  lemma ThreadFrame(s: State, r: State, t: Tid, u: Tid)
    requires SetsOk(s) && SameForOwners(s, r, t) && u != t && u < |s.threads|
    requires ThreadOk(u, s.threads[u], s.blocks, s.sets)
    ensures ThreadOk(u, s.threads[u], r.blocks, r.sets)
  {
    hide SetOk, SetsOk, Shaped, Marking, Building, Joined, Distinct;
    var pc := s.threads[u];
    InRangeMore(Holds(pc), |s.sets|, |r.sets|);
    InRangeMore(Eyes(pc), |s.sets|, |r.sets|);
    match pc
    case Loop(bs, i, large) => BuildingFrame(s, r, t, u, large, bs, i);
    case Lock(bs, i, large, small) => BuildingFrame(s, r, t, u, large, bs, i);
    case Locked(bs, i, large, small) =>
      BuildingFrame(s, r, t, u, large, bs, i);
      ShapedFrame(s, r, t, u, small);
    case Tested(bs, i, large, small) =>
      BuildingFrame(s, r, t, u, large, bs, i);
      ShapedFrame(s, r, t, u, small);
      assert SameForOwner(s.sets[small], r.sets[small]);
    case Both(bs, i, first, small) =>
      BuildingFrame(s, r, t, u, Some(first), bs, i);
      ShapedFrame(s, r, t, u, small);
      assert SameForOwner(s.sets[small], r.sets[small]);
    case Merged(bs, i, first, small) =>
      BuildingFrame(s, r, t, u, Some(first), bs, i + 1);
      ShapedFrame(s, r, t, u, small);
      assert SameForOwner(s.sets[small], r.sets[small]);
    case Mark(bs, first, k) => MarkFrame(s, r, t, u, first, k, bs);
    case Commit(bs, first) => MarkFrame(s, r, t, u, first, 0, bs);
    case Modify(bs, first) =>
      MarkFrame(s, r, t, u, first, 0, bs);
      assert SameForOwner(s.sets[first], r.sets[first]);
    case Release(bs, held, next) =>
      forall k | 0 <= k < |held|
        ensures Own(held[k], u, r.sets) && Shaped(r.sets[held[k]], r.blocks)
      {
        ShapedFrame(s, r, t, u, held[k]);
      }
    case _ =>
  }

  lemma MarkFrame(s: State, r: State, t: Tid, u: Tid, x: Sid, k: nat, bs: seq<Bid>)
    requires SetsOk(s) && SameForOwners(s, r, t) && u != t && Own(x, u, s.sets)
    requires Marking(s.sets[x], k, s.blocks)
    requires InRange(bs, |s.blocks|) && Joined(bs, |bs|, s.blocks, x)
    ensures Own(x, u, r.sets) && Marking(r.sets[x], k, r.blocks) && Joined(bs, |bs|, r.blocks, x)
  {
    hide SetOk, SetsOk, Joined, SameForOwners, DirtyFirst;
    assert Calm(s.sets[x].stage);
    ShapedFrame(s, r, t, u, x);
    JoinedFrame(s, r, t, u, x, bs, |bs|);
  }

  lemma OtherThreadsKeep(s: State, r: State, t: Tid)
    requires SetsOk(s) && ThreadsOk(s) && SameForOwners(s, r, t)
    requires |r.threads| == |s.threads|
    requires forall u :: 0 <= u < |s.threads| && u != t ==> r.threads[u] == s.threads[u]
    ensures forall u :: 0 <= u < |s.threads| && u != t ==> ThreadOk(u, r.threads[u], r.blocks, r.sets)
  {
    hide SetsOk, ThreadOk, SameForOwners;
    forall u | 0 <= u < |s.threads| && u != t
      ensures ThreadOk(u, r.threads[u], r.blocks, r.sets)
    {
      ThreadFrame(s, r, t, u);
    }
  }

  // ---- counts ----

  lemma {:induction false} CountsFrame(blocks: seq<Block>, after: seq<Block>)
    requires |after| == |blocks|
    requires forall b :: 0 <= b < |blocks| ==> after[b].io == blocks[b].io
    ensures CountWriteback(after) == CountWriteback(blocks) && CountCounted(after) == CountCounted(blocks)
  {
    if blocks != [] {
      CountsFrame(blocks[..|blocks| - 1], after[..|blocks| - 1]);
    }
  }

  lemma {:induction false} CountDirtyFrame(blocks: seq<Block>, after: seq<Block>)
    requires |after| == |blocks|
    requires forall b :: 0 <= b < |blocks| ==>
               (after[b].dirty && !after[b].debited <==> blocks[b].dirty && !blocks[b].debited)
    ensures CountDirty(after) == CountDirty(blocks)
  {
    if blocks != [] {
      CountDirtyFrame(blocks[..|blocks| - 1], after[..|blocks| - 1]);
    }
  }

  lemma {:induction false} CountOne(blocks: seq<Block>, b: Bid, bl: Block)
    requires b < |blocks|
    ensures CountWriteback(blocks[b := bl]) ==
            CountWriteback(blocks) - One(InWriteback(blocks[b].io)) + One(InWriteback(bl.io))
    ensures CountCounted(blocks[b := bl]) ==
            CountCounted(blocks) - One(blocks[b].io == Counted) + One(bl.io == Counted)
    ensures CountDirty(blocks[b := bl]) ==
            CountDirty(blocks) - One(blocks[b].dirty && !blocks[b].debited) + One(bl.dirty && !bl.debited)
  {
    var n := |blocks| - 1;
    var after := blocks[b := bl];
    if b < n {
      assert after[..n] == blocks[..n][b := bl];
      CountOne(blocks[..n], b, bl);
    } else {
      assert after[..n] == blocks[..n];
    }
  }

  lemma {:induction false} SumFrame(sets: seq<BlockSet>, after: seq<BlockSet>)
    requires |after| == |sets|
    requires forall x :: 0 <= x < |sets| ==> after[x].submitted == sets[x].submitted
    ensures SumSubmitted(after) == SumSubmitted(sets)
  {
    if sets != [] {
      SumFrame(sets[..|sets| - 1], after[..|sets| - 1]);
    }
  }

  lemma {:induction false} SumOne(sets: seq<BlockSet>, x: Sid, st: BlockSet)
    requires x < |sets|
    ensures SumSubmitted(sets[x := st]) == SumSubmitted(sets) - sets[x].submitted + st.submitted
  {
    var n := |sets| - 1;
    var after := sets[x := st];
    if x < n {
      assert after[..n] == sets[..n][x := st];
      SumOne(sets[..n], x, st);
    } else {
      assert after[..n] == sets[..n];
    }
  }

  // ---- steps of dirtying threads ----

  /** A step that leaves the worker, the writeback order and all IO alone. */
  predicate Quiet(s: State, r: State) {
    && r.worker == s.worker && r.list == s.list && r.llist == s.llist
    && r.dirtySeq == s.dirtySeq && r.writebackSeq == s.writebackSeq && r.nrWriteback == s.nrWriteback
    && |r.blocks| == |s.blocks| && |r.sets| >= |s.sets|
    && (forall x :: 0 <= x < |s.sets| ==>
          && r.sets[x].stage == s.sets[x].stage && r.sets[x].dirtySeq == s.sets[x].dirtySeq
          && r.sets[x].writeback == s.sets[x].writeback && r.sets[x].submitted == s.sets[x].submitted)
    && (forall x :: 0 <= x < |s.sets| && !Calm(s.sets[x].stage) ==>
          r.sets[x].list == s.sets[x].list && r.sets[x].size == s.sets[x].size)
    && (forall x :: |s.sets| <= x < |r.sets| ==> r.sets[x].stage == Open && r.sets[x].submitted == 0)
    && (forall b :: 0 <= b < |s.blocks| ==>
          && r.blocks[b].io == s.blocks[b].io && r.blocks[b].debited == s.blocks[b].debited
          && (s.blocks[b].io != Idle ==> r.blocks[b] == s.blocks[b]))
  }

  lemma {:induction false} SumMore(sets: seq<BlockSet>, after: seq<BlockSet>)
    requires |after| >= |sets|
    requires forall x :: 0 <= x < |sets| ==> after[x].submitted == sets[x].submitted
    requires forall x :: |sets| <= x < |after| ==> after[x].submitted == 0
    ensures SumSubmitted(after) == SumSubmitted(sets)
    decreases |after|
  {
    if |after| == |sets| {
      SumFrame(sets, after);
    } else {
      SumMore(sets, after[..|after| - 1]);
    }
  }

  lemma QuietKeepsTurn(s: State, r: State)
    requires InTurn(s) && Quiet(s, r)
    ensures InTurn(r)
  {
    hide Reverse;
  }

  lemma QuietKeepsWorker(s: State, r: State)
    requires WorkerOk(s) && InTurn(s) && Quiet(s, r)
    ensures WorkerOk(r)
  {
    hide Reverse, InTurn, Distinct;
    if s.worker.Submitting? {
      var todo := s.worker.todo;
      assert forall k :: 0 <= k < |todo| ==> s.blocks[todo[k]].io == Owed;
    }
  }

  lemma QuietKeepsCounts(s: State, r: State)
    requires WorkerOk(s) && CountsOk(s) && Quiet(s, r)
    requires r.nrDirty == CountDirty(r.blocks)
    ensures CountsOk(r)
  {
    hide CountDirty, SumSubmitted, CountWriteback, CountCounted;
    CountsFrame(s.blocks, r.blocks);
    SumMore(s.sets, r.sets);
  }

  /** The parts of the invariant that a dirtying thread's step must show by itself. */
  lemma QuietKeeps(s: State, r: State)
    requires Inv(s) && Quiet(s, r)
    requires SetsOk(r) && BlocksOk(r) && ThreadsOk(r) && HeldsOk(r)
    requires r.nrDirty == CountDirty(r.blocks)
    requires |r.threads| == |s.threads|
    requires forall u :: 0 <= u < |s.threads| && r.threads[u].SeenSeq? ==> r.threads[u] == s.threads[u]
    ensures Inv(r)
  {
    hide SetsOk, BlocksOk, ThreadsOk, HeldsOk, Quiet, InTurn, CountDirty;
    QuietKeepsTurn(s, r);
    QuietKeepsWorker(s, r);
    QuietKeepsCounts(s, r);
    SyncsKeep(s, r);
  }

  lemma SyncsKeep(s: State, r: State)
    requires SyncsOk(s) && Quiet(s, r) && |r.threads| == |s.threads|
    requires forall u :: 0 <= u < |s.threads| && r.threads[u].SeenSeq? ==> r.threads[u] == s.threads[u]
    ensures SyncsOk(r)
  {
  }

  lemma InvTyped(s: State)
    requires Inv(s)
    ensures Typed(s)
  {
    hide ThreadsOk, ThreadOk, HeldsOk, CountsOk, IoOk, BitsOk, Settled;
    forall t | 0 <= t < |s.threads|
      ensures PcTyped(s.threads[t], |s.blocks|, |s.sets|)
    {
      ThreadTyped(s, t);
    }
    forall x | 0 <= x < |s.sets|
      ensures InRange(s.sets[x].list, |s.blocks|)
    {
      assert SetOk(x, s.sets[x], s.blocks);
    }
    forall b | 0 <= b < |s.blocks| && s.blocks[b].owner.Some?
      ensures s.blocks[b].owner.value < |s.sets|
    {
      assert BlockOk(b, s.blocks[b], s.sets);
    }
    var q := Queue(s);
    forall k | 0 <= k < |s.list|
      ensures s.list[k] < |s.sets|
    {
      assert q[k] == s.list[k];
    }
    forall k | 0 <= k < |s.llist|
      ensures s.llist[k] < |s.sets|
    {
      assert q[|q| - 1 - k] == s.llist[k];
    }
  }

  lemma ThreadTyped(s: State, t: Tid)
    requires ThreadsOk(s) && t < |s.threads|
    ensures PcTyped(s.threads[t], |s.blocks|, |s.sets|)
  {
    hide PcTyped, Building, Shaped, Marking, Joined, Distinct;
    assert ThreadOk(t, s.threads[t], s.blocks, s.sets);
  }
}
