/** The list walks and splices of shared/block.c as they are written, and exactly when they do what
    their callers rely on (shared/block.c:446-462, 804-816, 917-963). */
module DirtyCode {
  import opened Options
  import opened DirtySets
  import opened DirtyInvariant
  import opened DirtyFrames
  import opened DirtySteps
  import opened DirtyWork
  import opened DirtyRuns

  // ---- the walk that marks blocks dirty, and the one that drops clean blocks ----

  /** The blocks after the marking walk over the first k listed ones: from the k-th back, each is
      marked until one is dirty already. */
  function Walk(list: seq<Bid>, k: nat, blocks: seq<Block>): (r: seq<Block>)
    requires InRange(list, |blocks|) && k <= |list|
    ensures |r| == |blocks|
  {
    if k == 0 || blocks[list[k - 1]].dirty then blocks
    else Walk(list, k - 1, blocks[list[k - 1] := blocks[list[k - 1]].(dirty := true)])
  }

  /** What is left of the list after the walk of clear_set_dirtying: the last blocks go until one is
      dirty. */
  function Dropped(list: seq<Bid>, blocks: seq<Block>): seq<Bid>
    requires InRange(list, |blocks|)
  {
    if list == [] || blocks[list[|list| - 1]].dirty then list
    else Dropped(list[..|list| - 1], blocks)
  }

  /** The marking loop of dirty_begin itself. */
  method MarkTail(list: seq<Bid>, blocks: array<Block>)
    requires InRange(list, blocks.Length)
    modifies blocks
    ensures blocks[..] == Walk(list, |list|, old(blocks[..]))
  {
    var k := |list|;
    while k > 0 && !blocks[list[k - 1]].dirty
      invariant 0 <= k <= |list|
      invariant Walk(list, k, blocks[..]) == Walk(list, |list|, old(blocks[..]))
    {
      ghost var before := blocks[..];
      var b := list[k - 1];
      blocks[b] := blocks[b].(dirty := true);
      assert blocks[..] == before[b := before[b].(dirty := true)];
      k := k - 1;
    }
  }

  /** The dropping loop of clear_set_dirtying itself: what is dropped loses its set. */
  method DropTail(list: seq<Bid>, blocks: array<Block>) returns (rest: seq<Bid>)
    requires InRange(list, blocks.Length) && Distinct(list)
    modifies blocks
    ensures rest == Dropped(list, old(blocks[..])) && |rest| <= |list| && rest == list[..|rest|]
    ensures blocks[..] == Detached(old(blocks[..]), list[|rest|..])
  {
    hide Dropped, Detached;
    rest := list;
    ghost var b0 := blocks[..];
    DetachNone(b0, list);
    while rest != [] && !blocks[rest[|rest| - 1]].dirty
      invariant |rest| <= |list| && rest == list[..|rest|]
      invariant Dropped(rest, b0) == Dropped(list, b0)
      invariant blocks[..] == Detached(b0, list[|rest|..])
    {
      var n := |rest| - 1;
      var b := rest[n];
      ghost var before := blocks[..];
      DetachOne(b0, list, n);
      DroppedLast(rest, b0);
      blocks[b] := blocks[b].(owner := None);
      assert blocks[..] == before[b := before[b].(owner := None)];
      rest := rest[..n];
    }
    if rest != [] {
      DetachOne(b0, list, |rest| - 1);
    }
    DroppedLast(rest, b0);
  }

  /** The listed blocks without a set. */
  function Detached(blocks: seq<Block>, list: seq<Bid>): (r: seq<Block>)
    ensures |r| == |blocks|
    ensures forall b :: 0 <= b < |r| ==> r[b] == if b in list then blocks[b].(owner := None) else blocks[b]
  {
    seq(|blocks|, b requires 0 <= b < |blocks| => if b in list then blocks[b].(owner := None) else blocks[b])
  }

  lemma DetachNone(blocks: seq<Block>, list: seq<Bid>)
    ensures Detached(blocks, list[|list|..]) == blocks && list[..|list|] == list
  {
  }

  lemma DetachOne(blocks: seq<Block>, list: seq<Bid>, n: nat)
    requires InRange(list, |blocks|) && Distinct(list) && n < |list|
    ensures var before := Detached(blocks, list[n + 1..]);
            && before[list[n]] == blocks[list[n]]
            && Detached(blocks, list[n..]) == before[list[n] := before[list[n]].(owner := None)]
  {
    assert list[n..] == [list[n]] + list[n + 1..];
    assert list[n] !in list[n + 1..];
  }

  lemma DroppedLast(list: seq<Bid>, blocks: seq<Block>)
    requires InRange(list, |blocks|)
    ensures list == [] || blocks[list[|list| - 1]].dirty ==> Dropped(list, blocks) == list
    ensures list != [] && !blocks[list[|list| - 1]].dirty ==>
              InRange(list[..|list| - 1], |blocks|) && Dropped(list, blocks) == Dropped(list[..|list| - 1], blocks)
  {
  }

  /** The protocol's marking steps are this walk: each leaves the same walk to do, the last none. */
  lemma MarkStepsWalk(s: State, t: Tid, pc: Pc, r: State)
    requires Typed(s) && t < |s.threads| && pc == s.threads[t] && pc.Mark? && MarkOne(s, t, pc) == Some(r)
    ensures pc.first < |s.sets| && pc.k <= |s.sets[pc.first].list|
    ensures var list := s.sets[pc.first].list;
            && InRange(list, |s.blocks|) && |r.blocks| == |s.blocks|
            && Walk(list, pc.k, s.blocks) ==
               if r.threads[t].Mark? && r.threads[t].k < pc.k then Walk(list, r.threads[t].k, r.blocks) else r.blocks
  {
    assert Holds(pc)[0] == pc.first;
  }

  lemma ReleaseOneIs(s: State, t: Tid, pc: Pc, r: State)
    requires Typed(s) && t < |s.threads| && pc == s.threads[t] && pc.Release? && pc.held != []
    requires ReleaseOne(s, t, pc) == Some(r)
    ensures var x := pc.held[0];
            && x < |s.sets| == |r.sets| && |r.blocks| == |s.blocks| && InRange(s.sets[x].list, |s.blocks|)
            && (forall b :: 0 <= b < |s.blocks| ==> r.blocks[b].dirty == s.blocks[b].dirty)
            && var list := s.sets[x].list;
               var n := |list|;
               if n > 0 && !s.blocks[list[n - 1]].dirty then
                 r.sets[x].list == list[..n - 1] && r.sets[x].dirtying == s.sets[x].dirtying
               else r.sets[x].list == list && r.sets[x].dirtying.None? && r.blocks == s.blocks
  {
    assert Holds(pc)[0] == pc.held[0];
  }

  /** And the steps that back off from a set drop what this walk drops. */
  lemma ReleaseStepsDrop(s: State, t: Tid, pc: Pc, r: State)
    requires Inv(s) && Typed(s) && t < |s.threads| && pc == s.threads[t] && pc.Release? && pc.held != []
    requires ReleaseOne(s, t, pc) == Some(r)
    ensures var x := pc.held[0];
            && x < |s.sets| && x < |r.sets| && |r.blocks| == |s.blocks|
            && InRange(s.sets[x].list, |s.blocks|) && InRange(r.sets[x].list, |r.blocks|)
            && Dropped(s.sets[x].list, s.blocks) == Dropped(r.sets[x].list, r.blocks)
            && (r.sets[x].dirtying.None? ==> r.sets[x].list == Dropped(s.sets[x].list, s.blocks))
  {
    hide Inv, Typed, ReleaseOne;
    var x := pc.held[0];
    assert Holds(pc)[0] == x;
    ReleaseOneIs(s, t, pc, r);
    HeldHas(s, t, pc, x);
    var list := s.sets[x].list;
    if list != [] && !s.blocks[list[|list| - 1]].dirty {
      DroppedFrame(list[..|list| - 1], s.blocks, r.blocks);
    }
  }

  lemma HeldHas(s: State, t: Tid, pc: Pc, x: Sid)
    requires Inv(s) && t < |s.threads| && pc == s.threads[t] && pc.Release? && pc.held != [] && x == pc.held[0]
    ensures x < |s.sets| && s.sets[x].dirtying == Some(t)
  {
    hide Inv, SetsOk, BlocksOk, ThreadsOk, HeldsOk, InTurn, WorkerOk, CountsOk, SyncsOk;
    assert Holds(pc)[0] == x;
    InvParts(s);
    HeldAt(s, t, pc);
  }

  lemma {:induction false} DroppedFrame(list: seq<Bid>, blocks: seq<Block>, after: seq<Block>)
    requires InRange(list, |blocks|) && |after| == |blocks|
    requires forall b :: 0 <= b < |blocks| ==> after[b].dirty == blocks[b].dirty
    ensures Dropped(list, after) == Dropped(list, blocks)
  {
    if list != [] {
      DroppedFrame(list[..|list| - 1], blocks, after);
    }
  }

  /** The marking walk leaves every block of the list dirty exactly when no clean block stands
      before a dirty one. */
  lemma {:induction false} WalkMarksAllIff(list: seq<Bid>, k: nat, blocks: seq<Block>)
    requires InRange(list, |blocks|) && Distinct(list) && k <= |list|
    requires forall j :: k <= j < |list| ==> blocks[list[j]].dirty
    ensures AllDirty(list, Walk(list, k, blocks)) <==> DirtyFirst(list[..k], blocks)
  {
    hide Distinct;
    if k == 0 {
      assert AllDirty(list, blocks);
    } else if blocks[list[k - 1]].dirty {
      StoppedIff(list, k, blocks);
    } else {
      hide AllDirty, DirtyFirst;
      var b := list[k - 1];
      var after := blocks[b := blocks[b].(dirty := true)];
      OthersDiffer(list, k - 1);
      WalkMarksAllIff(list, k - 1, after);
      LastIsClean(list, k, blocks, after);
    }
  }

  lemma OthersDiffer(list: seq<Bid>, k: nat)
    requires Distinct(list) && k < |list|
    ensures forall j :: 0 <= j < |list| && j != k ==> list[j] != list[k]
  {
  }

  lemma StoppedIff(list: seq<Bid>, k: nat, blocks: seq<Block>)
    requires InRange(list, |blocks|) && 0 < k <= |list| && blocks[list[k - 1]].dirty
    requires forall j :: k <= j < |list| ==> blocks[list[j]].dirty
    ensures AllDirty(list, blocks) <==> DirtyFirst(list[..k], blocks)
  {
    var front := list[..k];
    assert forall j :: 0 <= j < k ==> front[j] == list[j];
    if DirtyFirst(front, blocks) {
      forall j | 0 <= j < |list|
        ensures blocks[list[j]].dirty
      {
        if j < k - 1 {
          assert blocks[front[k - 1]].dirty && front[j] == list[j];
        }
      }
    }
  }

  lemma LastIsClean(list: seq<Bid>, k: nat, blocks: seq<Block>, after: seq<Block>)
    requires InRange(list, |blocks|) && 0 < k <= |list| && !blocks[list[k - 1]].dirty
    requires forall j :: 0 <= j < |list| && j != k - 1 ==> list[j] != list[k - 1]
    requires after == blocks[list[k - 1] := blocks[list[k - 1]].(dirty := true)]
    ensures DirtyFirst(list[..k], blocks) <==> DirtyFirst(list[..k - 1], after)
  {
    var l, m := list[..k], list[..k - 1];
    assert forall j :: 0 <= j < k - 1 ==> l[j] == list[j] && m[j] == list[j];
    assert l[k - 1] == list[k - 1];
  }

  /** Backing off keeps exactly the dirty blocks exactly when no clean block stands before a dirty
      one. */
  lemma {:induction false} DropKeepsDirtyIff(list: seq<Bid>, blocks: seq<Block>)
    requires InRange(list, |blocks|)
    ensures InRange(Dropped(list, blocks), |blocks|)
    ensures AllDirty(Dropped(list, blocks), blocks) <==> DirtyFirst(list, blocks)
    ensures forall b :: b in list && b < |blocks| && blocks[b].dirty ==> b in Dropped(list, blocks)
  {
    if list != [] {
      var n := |list| - 1;
      if blocks[list[n]].dirty {
        if AllDirty(list, blocks) {
        } else {
          var i :| 0 <= i < |list| && !blocks[list[i]].dirty;
          assert i < n;
        }
      } else {
        var rest := list[..n];
        assert forall j :: 0 <= j < n ==> rest[j] == list[j];
        assert list == rest + [list[n]];
        DropKeepsDirtyIff(rest, blocks);
        assert DirtyFirst(list, blocks) <==> DirtyFirst(rest, blocks);
      }
    }
  }

  // ---- splicing ----

  /** list_splice_init puts small's whole list in front of large's; splicing at the tail would put
      it behind. Either way the clean blocks stay last exactly when the front list has none or the
      back list has only such. */
  lemma SpliceIff(front: seq<Bid>, back: seq<Bid>, blocks: seq<Block>)
    requires InRange(front, |blocks|) && InRange(back, |blocks|)
    requires DirtyFirst(front, blocks) && DirtyFirst(back, blocks)
    ensures InRange(front + back, |blocks|)
    ensures DirtyFirst(front + back, blocks) <==> AllDirty(front, blocks) || AllClean(back, blocks)
  {
    var m := front + back;
    if !AllDirty(front, blocks) && !AllClean(back, blocks) {
      var i :| 0 <= i < |front| && !blocks[front[i]].dirty;
      var j :| 0 <= j < |back| && blocks[back[j]].dirty;
      assert m[i] == front[i] && m[|front| + j] == back[j];
    }
  }

  /** A set of one new block merged into a set of one dirty block: the walk then stops at once and
      leaves the new block clean. */
  lemma HeadSpliceBuriesClean()
    ensures var clean := Block(None, false, Idle, false, 0);
            var blocks := [clean.(dirty := true), clean];
            && DirtyFirst([0], blocks) && DirtyFirst([1], blocks)
            && !DirtyFirst([1] + [0], blocks)
            && !AllDirty([1, 0], Walk([1, 0], 2, blocks))
  {
    var clean := Block(None, false, Idle, false, 0);
    var blocks := [clean.(dirty := true), clean];
    assert ([1] + [0])[0] == 1 && ([1] + [0])[1] == 0;
    assert Walk([1, 0], 2, blocks) == blocks;
    assert [1, 0][0] == 1;
  }

  // ---- which set survives a merge ----

  /** The merge as written: the two sets change places only if small is the larger. */
  function MergeCode(s: State, t: Tid, pc: Pc): State
    requires Typed(s) && t < |s.threads| && pc == s.threads[t] && pc.Both?
  {
    assert Holds(pc)[0] == pc.first && Holds(pc)[1] == pc.small;
    if s.sets[pc.small].size > s.sets[pc.first].size then MergedState(s, t, pc, pc.first, pc.small)
    else MergedState(s, t, pc, pc.small, pc.first)
  }

  /** Which set the merge as written keeps. */
  function KeptByCode(s: State, pc: Pc): Sid
    requires pc.Both? && pc.first < |s.sets| && pc.small < |s.sets|
  {
    if s.sets[pc.small].size > s.sets[pc.first].size then pc.small else pc.first
  }

  /** After the merge as written the set that was kept is queued or has no dirty block, as a reader of
      the queue relies on, exactly when both sets or neither were queued or the queued one is the one
      that the sizes favour. */
  lemma SizeRuleKeepsQueuedIff(s: State, t: Tid)
    requires Reachable(s) && t < |s.threads| && s.threads[t].Both?
    ensures Typed(s)
    ensures var pc := s.threads[t];
            && pc.first < |s.sets| && pc.small < |s.sets| && KeptByCode(s, pc) < |s.sets|
            && var large, small := s.sets[pc.first], s.sets[pc.small];
               var r := MergeCode(s, t, pc);
               var y := KeptByCode(s, pc);
               && |r.sets| == |s.sets| && InRange(r.sets[y].list, |r.blocks|)
               && (y in Queue(r) || AllClean(r.sets[y].list, r.blocks)
                   <==> large.dirty == small.dirty || (small.dirty <==> small.size > large.size))
  {
    hide Reachable, Inv, Typed, Splice, MergedState, Queue;
    ReachableHolds(s);
    InvParts(s);
    var pc := s.threads[t];
    ThreadAt(s, t);
    BothFacts(s, t, pc);
    assert Own(pc.first, t, s.sets) && Own(pc.small, t, s.sets);
    var y := KeptByCode(s, pc);
    var x := if y == pc.small then pc.first else pc.small;
    HeldPair(s, t, pc, x, y);
    MergedDirt(s, t, pc, x, y);
  }

  /** Over the limit the code waits for the number of the set that the sizes favour. A number was taken
      for that set, where else the field is whatever the allocation left there, exactly if it is
      queued. The model's new sets carry 0, and it prefers the queued set. */
  lemma LimitNumberIsTakenIff(s: State, t: Tid)
    requires Reachable(s) && t < |s.threads| && s.threads[t].Both?
    ensures var pc := s.threads[t];
            && pc.first < |s.sets| && pc.small < |s.sets|
            && (s.sets[KeptByCode(s, pc)].dirtySeq > 0 <==> KeptByCode(s, pc) in Queue(s))
  {
    hide Reachable, Inv, Typed, Queue;
    ReachableHolds(s);
    InvParts(s);
    var pc := s.threads[t];
    ThreadAt(s, t);
    BothFacts(s, t, pc);
    var y := KeptByCode(s, pc);
    HeldPair(s, t, pc, if y == pc.small then pc.first else pc.small, y);
    assert BitsOk(s.sets[y]);
    QueuedIff(s, y);
  }

  lemma QueuedIff(s: State, y: Sid)
    requires InTurn(s) && y < |s.sets|
    ensures y in Queue(s) <==> s.sets[y].stage == Pending
  {
    hide Reverse;
  }

  /** Two held sets that can be merged either way. */
  lemma HeldPair(s: State, t: Tid, pc: Pc, x: Sid, y: Sid)
    requires SetsOk(s) && BlocksOk(s) && t < |s.threads| && pc.Both? && ThreadOk(t, pc, s.blocks, s.sets)
    requires (x == pc.first && y == pc.small) || (x == pc.small && y == pc.first)
    ensures MergeRanges(s, x, y) && x != y && Calm(s.sets[x].stage) && Calm(s.sets[y].stage)
    ensures SetOk(x, s.sets[x], s.blocks) && SetOk(y, s.sets[y], s.blocks)
    ensures Shaped(s.sets[x], s.blocks) && Shaped(s.sets[y], s.blocks)
    ensures s.sets[x].list != [] && s.sets[y].list != []
  {
    hide SetsOk, BlocksOk, Shaped, IoOk, Settled, AllDebited, BitsOk;
    BothFacts(s, t, pc);
    SetAt(s, x);
    SetAt(s, y);
    NotEmpty(s, t, pc.bs, pc.i, pc.first);
    Listed(s, pc.bs[pc.i], pc.small);
  }

  lemma MergedDirt(s: State, t: Tid, pc: Pc, x: Sid, y: Sid)
    requires t < |s.threads| && pc.Both? && MergeRanges(s, x, y) && x != y && InTurn(s)
    requires Calm(s.sets[x].stage) && Calm(s.sets[y].stage)
    requires SetOk(x, s.sets[x], s.blocks) && SetOk(y, s.sets[y], s.blocks)
    requires Shaped(s.sets[x], s.blocks) && Shaped(s.sets[y], s.blocks)
    requires s.sets[x].list != [] && s.sets[y].list != []
    ensures var r := MergedState(s, t, pc, x, y);
            && |r.sets| == |s.sets| && InRange(r.sets[y].list, |r.blocks|)
            && (y in Queue(r) || AllClean(r.sets[y].list, r.blocks) <==> s.sets[y].dirty || !s.sets[x].dirty)
  {
    hide Splice, MergedState, Reverse, Distinct;
    var r := MergedState(s, t, pc, x, y);
    var l, m := s.sets[x].list, Splice(s.sets[y].list, s.sets[x].list, s.blocks);
    MergedParts(s, t, pc, r, x, y);
    SpliceMembers(s.sets[y].list, l, s.blocks);
    assert Queue(r) == Queue(s) by { MergedQueue(s, t, pc, x, y); }
    assert l[0] in m;
    if !s.sets[y].dirty && !s.sets[x].dirty {
      forall k | 0 <= k < |m|
        ensures !r.blocks[m[k]].dirty
      {
        assert m[k] in m;
        AnyClean(s.sets[y].list, s.blocks, m[k]);
        AnyClean(l, s.blocks, m[k]);
      }
    } else if !s.sets[y].dirty {
      var k :| 0 <= k < |m| && m[k] == l[0];
      assert r.blocks[m[k]].dirty;
    }
  }

  lemma AnyClean(list: seq<Bid>, blocks: seq<Block>, b: Bid)
    requires InRange(list, |blocks|)
    ensures b in list && AllClean(list, blocks) ==> b < |blocks| && !blocks[b].dirty
  {
  }

  lemma MergedQueue(s: State, t: Tid, pc: Pc, x: Sid, y: Sid)
    requires t < |s.threads| && pc.Both? && MergeRanges(s, x, y)
    ensures Queue(MergedState(s, t, pc, x, y)) == Queue(s)
  {
    hide Splice;
  }

  // ---- a dirty block that no set in the queue holds ----

  /** The block does not belong to the set. */
  predicate NotOf(blocks: seq<Block>, c: Bid, y: Sid) {
    c < |blocks| ==> blocks[c].owner != Some(y)
  }

  /** A dirty block in a set that is not queued and that the worker does not have. */
  predicate Lost(s: State, b: Bid, y: Sid) {
    && b < |s.blocks| && y < |s.sets| && s.blocks[b].owner == Some(y) && s.blocks[b].dirty
    && s.sets[y].stage == Open && y !in s.list && y !in s.llist
    && (!s.worker.Resting? && !s.worker.Picking? ==> s.worker.claim != y)
    && (forall c :: 0 <= c < |s.blocks| && s.blocks[c].owner == Some(y) ==> s.blocks[c].io == Idle)
    && (forall c :: c in Todo(s.worker) ==> NotOf(s.blocks, c, y))
    && (forall x, c :: 0 <= x < |s.sets| && x != y && c in s.sets[x].list ==> NotOf(s.blocks, c, y))
  }

  /** No step of the run is one of a thread that holds DIRTYING on set y; others may take any steps. */
  predicate Avoids(s: State, acts: seq<Action>, y: Sid)
    decreases |acts|
  {
    acts != [] ==>
      && (acts[0].Dirtier? && acts[0].t < |s.threads| ==> y !in Holds(s.threads[acts[0].t]))
      && (Typed(s) && Next(s, acts[0]).Some? ==> Avoids(Next(s, acts[0]).value, acts[1..], y))
  }

  lemma {:induction false} ReverseIn(ids: seq<Sid>, y: Sid)
    ensures y in Reverse(ids) <==> y in ids
  {
    if ids != [] {
      assert ids == [ids[0]] + ids[1..];
      ReverseIn(ids[1..], y);
    }
  }

  /** Steps that neither touch the set and its blocks nor bring it to the worker. */
  lemma LostFrame(s: State, r: State, b: Bid, y: Sid)
    requires Lost(s, b, y) && |r.blocks| == |s.blocks| && |r.sets| == |s.sets|
    requires forall c :: 0 <= c < |s.blocks| && s.blocks[c].owner == Some(y) ==> r.blocks[c] == s.blocks[c]
    requires forall c :: 0 <= c < |s.blocks| && s.blocks[c].owner != Some(y) ==> r.blocks[c].owner != Some(y)
    requires forall x, c :: 0 <= x < |s.sets| && c in r.sets[x].list ==> c in s.sets[x].list
    requires r.sets[y].stage == Open && y !in r.list && y !in r.llist
    requires !r.worker.Resting? && !r.worker.Picking? ==> r.worker.claim != y
    requires forall c :: c in Todo(r.worker) ==> NotOf(s.blocks, c, y)
    ensures Lost(r, b, y) && r.blocks[b].writes == s.blocks[b].writes
  {
    forall c | c in Todo(r.worker)
      ensures NotOf(r.blocks, c, y)
    {
      assert NotOf(s.blocks, c, y);
    }
    forall x, c | 0 <= x < |r.sets| && x != y && c in r.sets[x].list
      ensures NotOf(r.blocks, c, y)
    {
      assert NotOf(s.blocks, c, y);
    }
  }

  lemma LostWork(s: State, r: State, b: Bid, y: Sid)
    requires Typed(s) && WorkerStep(s) == Some(r) && Lost(s, b, y)
    ensures Lost(r, b, y) && r.blocks[b].writes == s.blocks[b].writes
  {
    WorkLeavesBlocks(s, r, b, y);
    WorkLeavesSet(s, r, b, y);
    WorkSets(s, r);
    hide WorkerStep, Typed;
    LostFrame(s, r, b, y);
  }

  lemma WorkLeavesBlocks(s: State, r: State, b: Bid, y: Sid)
    requires Typed(s) && WorkerStep(s) == Some(r) && Lost(s, b, y)
    ensures |r.blocks| == |s.blocks|
    ensures forall c :: 0 <= c < |s.blocks| && s.blocks[c].owner == Some(y) ==> r.blocks[c] == s.blocks[c]
    ensures forall c :: 0 <= c < |s.blocks| && s.blocks[c].owner != Some(y) ==> r.blocks[c].owner != Some(y)
  {
    match s.worker {
      case Charging(x) =>
        forall c | c in s.sets[x].list
          ensures NotOf(s.blocks, c, y)
        {
        }
      case Submitting(x, todo) =>
        if todo != [] {
          assert todo[0] in todo;
          assert NotOf(s.blocks, todo[0], y);
        }
      case _ =>
    }
  }

  lemma WorkLeavesSet(s: State, r: State, b: Bid, y: Sid)
    requires Typed(s) && WorkerStep(s) == Some(r) && Lost(s, b, y)
    ensures y < |r.sets| && r.sets[y].stage == Open && y !in r.list && y !in r.llist
    ensures !r.worker.Resting? && !r.worker.Picking? ==> r.worker.claim != y
    ensures forall c :: c in Todo(r.worker) ==> NotOf(s.blocks, c, y)
  {
    match s.worker {
      case Resting => ReverseIn(s.llist, y);
      case Counting(x) =>
        forall c | c in s.sets[x].list
          ensures NotOf(s.blocks, c, y)
        {
        }
      case Submitting(x, todo) =>
        if todo != [] {
          assert forall c :: c in todo[1..] ==> c in todo;
        }
      case _ =>
    }
  }

  lemma LostRetire(s: State, x: Sid, r: State, b: Bid, y: Sid)
    requires Typed(s) && x < |s.sets| && Retire(s, x) == Some(r) && Lost(s, b, y)
    ensures Lost(r, b, y) && r.blocks[b].writes == s.blocks[b].writes
  {
    var list := s.sets[x].list;
    forall c | c in list && x != y
      ensures NotOf(s.blocks, c, y)
    {
    }
    if list != [] {
      assert list[0] in list && forall c :: c in list[1..] ==> c in list;
    }
    LostFrame(s, r, b, y);
  }

  lemma LostDrop(s: State, c: Bid, r: State, b: Bid, y: Sid)
    requires Typed(s) && c < |s.blocks| && (IoDone(s, c) == Some(r) || Drop(s, c) == Some(r)) && Lost(s, b, y)
    ensures Lost(r, b, y) && r.blocks[b].writes == s.blocks[b].writes
  {
    assert s.blocks[c].owner != Some(y);
    LostFrame(s, r, b, y);
  }

  lemma LostThreads(s: State, r: State, b: Bid, y: Sid)
    requires Lost(s, b, y) && r == s.(threads := r.threads, worker := r.worker)
    requires r.worker == s.worker || r.worker == Resting
    ensures Lost(r, b, y)
  {
  }

  // ---- steps of threads that do not hold the set ----

  /** Blocks of other sets and without a set may change, and may join other sets. */
  lemma LostBeside(s: State, r: State, b: Bid, y: Sid)
    requires Lost(s, b, y) && |r.blocks| == |s.blocks| && |r.sets| >= |s.sets|
    requires forall c :: 0 <= c < |s.blocks| && s.blocks[c].owner == Some(y) ==> r.blocks[c] == s.blocks[c]
    requires forall c :: 0 <= c < |s.blocks| && s.blocks[c].owner != Some(y) ==> r.blocks[c].owner != Some(y)
    requires forall x, c :: 0 <= x < |r.sets| && x != y && c in r.sets[x].list ==> NotOf(s.blocks, c, y)
    requires r.sets[y].stage == Open && r.list == s.list && y !in r.llist && r.worker == s.worker
    ensures Lost(r, b, y) && r.blocks[b].writes == s.blocks[b].writes
  {
    forall c | c in Todo(r.worker)
      ensures NotOf(r.blocks, c, y)
    {
      assert NotOf(s.blocks, c, y);
    }
    forall x, c | 0 <= x < |r.sets| && x != y && c in r.sets[x].list
      ensures NotOf(r.blocks, c, y)
    {
      assert NotOf(s.blocks, c, y);
    }
  }

  lemma LostFetch(s: State, t: Tid, pc: Pc, r: State, b: Bid, y: Sid)
    requires Typed(s) && t < |s.threads| && pc == s.threads[t] && pc.Loop? && Fetch(s, t, pc) == Some(r)
    requires Lost(s, b, y) && y !in Holds(pc)
    ensures Lost(r, b, y) && r.blocks[b].writes == s.blocks[b].writes
  {
    LoopingParts(pc, |s.blocks|, |s.sets|);
    if pc.large.Some? {
      assert Holds(pc)[0] == pc.large.value;
    }
    LostBeside(s, r, b, y);
  }

  lemma LostLock(s: State, t: Tid, pc: Pc, r: State, b: Bid, y: Sid)
    requires Typed(s) && t < |s.threads| && pc == s.threads[t] && Lost(s, b, y)
    requires || (pc.Lock? && TryLock(s, t, pc) == Some(r)) || (pc.Locked? && TestWriteback(s, t, pc) == Some(r))
             || (pc.Tested? && CheckOwner(s, t, pc) == Some(r)) || (pc.Merged? && DropSmall(s, t, pc) == Some(r))
    ensures Lost(r, b, y) && r.blocks[b].writes == s.blocks[b].writes
  {
    if pc.Lock? {
      assert Eyes(pc)[0] == pc.small;
    } else if pc.Merged? {
      assert Holds(pc)[1] == pc.small;
    }
    LostBeside(s, r, b, y);
  }

  lemma LostMark(s: State, t: Tid, pc: Pc, r: State, b: Bid, y: Sid)
    requires Typed(s) && t < |s.threads| && pc == s.threads[t] && Lost(s, b, y) && y !in Holds(pc)
    requires (pc.Mark? && MarkOne(s, t, pc) == Some(r)) || (pc.Commit? && CommitSet(s, t, pc) == Some(r))
    ensures Lost(r, b, y) && r.blocks[b].writes == s.blocks[b].writes
  {
    assert Holds(pc)[0] == pc.first;
    if pc.Mark? && 0 < pc.k <= |s.sets[pc.first].list| {
      assert NotOf(s.blocks, s.sets[pc.first].list[pc.k - 1], y);
    }
    LostBeside(s, r, b, y);
  }

  lemma LostEnd(s: State, t: Tid, pc: Pc, r: State, b: Bid, y: Sid)
    requires Typed(s) && t < |s.threads| && pc == s.threads[t] && Lost(s, b, y)
    requires (pc.Modify? && End(s, t, pc) == Some(r)) || (pc.Wait? && Resume(s, t, pc) == Some(r))
    ensures Lost(r, b, y) && r.blocks[b].writes == s.blocks[b].writes
  {
    if pc.Modify? {
      assert Asked(pc)[0] == pc.bs[0];
    }
    LostBeside(s, r, b, y);
  }

  lemma LostRelease(s: State, t: Tid, pc: Pc, r: State, b: Bid, y: Sid)
    requires Typed(s) && t < |s.threads| && pc == s.threads[t] && Lost(s, b, y) && y !in Holds(pc)
    requires pc.Release? && ReleaseOne(s, t, pc) == Some(r)
    ensures Lost(r, b, y) && r.blocks[b].writes == s.blocks[b].writes
  {
    if pc.held != [] {
      var x := pc.held[0];
      assert Holds(pc)[0] == x;
      if s.sets[x].list != [] {
        assert NotOf(s.blocks, s.sets[x].list[|s.sets[x].list| - 1], y);
      }
    }
    LostBeside(s, r, b, y);
  }

  lemma LostMerge(s: State, t: Tid, pc: Pc, r: State, b: Bid, y: Sid)
    requires Typed(s) && t < |s.threads| && pc == s.threads[t] && Lost(s, b, y) && y !in Holds(pc)
    requires pc.Both? && Merge(s, t, pc) == Some(r)
    ensures Lost(r, b, y) && r.blocks[b].writes == s.blocks[b].writes
  {
    hide MergedState, Swaps, Lost;
    assert Holds(pc)[0] == pc.first && Holds(pc)[1] == pc.small;
    var swap := Swaps(s.sets[pc.first], s.sets[pc.small]);
    var z := if swap then pc.small else pc.first;
    var x := if swap then pc.first else pc.small;
    if s.sets[z].size + s.sets[x].size > SET_LIMIT {
      LostThreads(s, r, b, y);
      assert b < |s.blocks| by { LostIn(s, b, y); }
    } else {
      LostMerged(s, t, pc, b, y, x, z);
    }
  }

  lemma LostMerged(s: State, t: Tid, pc: Pc, b: Bid, y: Sid, x: Sid, z: Sid)
    requires MergeRanges(s, x, z) && x != z && x != y && z != y && t < |s.threads| && pc.Both? && Lost(s, b, y)
    ensures var r := MergedState(s, t, pc, x, z);
            b < |r.blocks| && b < |s.blocks| && Lost(r, b, y) && r.blocks[b].writes == s.blocks[b].writes
  {
    var r := MergedState(s, t, pc, x, z);
    MergedParts(s, t, pc, r, x, z);
    MergedRest(s, t, pc, x, z);
    SpliceMembers(s.sets[z].list, s.sets[x].list, s.blocks);
    hide Splice, MergedState;
    forall w, c | 0 <= w < |r.sets| && w != y && c in r.sets[w].list
      ensures NotOf(s.blocks, c, y)
    {
      if w == z {
        assert c in s.sets[z].list || c in s.sets[x].list;
      }
    }
    assert forall c :: c in s.sets[x].list ==> NotOf(s.blocks, c, y);
    LostBeside(s, r, b, y);
  }

  lemma MergedRest(s: State, t: Tid, pc: Pc, x: Sid, z: Sid)
    requires MergeRanges(s, x, z) && x != z && t < |s.threads| && pc.Both?
    ensures var r := MergedState(s, t, pc, x, z);
            && |r.sets| == |s.sets| && r.list == s.list && r.llist == s.llist && r.worker == s.worker
            && forall w :: 0 <= w < |s.sets| && w != x && w != z ==> r.sets[w] == s.sets[w]
  {
    hide Splice;
  }

  lemma LostDirtier(s: State, t: Tid, r: State, b: Bid, y: Sid)
    requires Typed(s) && t < |s.threads| && DirtierStep(s, t) == Some(r) && Lost(s, b, y) && y !in Holds(s.threads[t])
    ensures b < |s.blocks| && b < |r.blocks| && Lost(r, b, y) && r.blocks[b].writes == s.blocks[b].writes
  {
    hide Fetch, TryLock, TestWriteback, CheckOwner, Merge, DropSmall, MarkOne, CommitSet, End, ReleaseOne, Resume, Lost;
    LostIn(s, b, y);
    var pc := s.threads[t];
    match pc {
      case Loop(_, _, _) => LostFetch(s, t, pc, r, b, y);
      case Lock(_, _, _, _) => LostLock(s, t, pc, r, b, y);
      case Locked(_, _, _, _) => LostLock(s, t, pc, r, b, y);
      case Tested(_, _, _, _) => LostLock(s, t, pc, r, b, y);
      case Both(_, _, _, _) => LostMerge(s, t, pc, r, b, y);
      case Merged(_, _, _, _) => LostLock(s, t, pc, r, b, y);
      case Mark(_, _, _) => LostMark(s, t, pc, r, b, y);
      case Commit(_, _) => LostMark(s, t, pc, r, b, y);
      case Modify(_, _) => LostEnd(s, t, pc, r, b, y);
      case Release(_, _, _) => LostRelease(s, t, pc, r, b, y);
      case Wait(_, _) => LostEnd(s, t, pc, r, b, y);
    }
    LostIn(r, b, y);
  }

  lemma LostStep(s: State, a: Action, r: State, b: Bid, y: Sid)
    requires Typed(s) && Next(s, a) == Some(r) && Lost(s, b, y)
    requires a.Dirtier? && a.t < |s.threads| ==> y !in Holds(s.threads[a.t])
    ensures Lost(r, b, y) && r.blocks[b].writes == s.blocks[b].writes
  {
    hide Lost, WorkerStep, DirtierStep, IoDone, Drop, Retire;
    LostIn(s, b, y);
    match a
    case Dirtier(t) => LostDirtier(s, t, r, b, y);
    case Begin(t, want) => LostThreads(s, r, b, y);
    case Fails(t) => LostThreads(s, r, b, y);
    case Sync(t) => LostThreads(s, r, b, y);
    case Work => LostWork(s, r, b, y);
    case WorkStops => LostThreads(s, r, b, y);
    case Completes(c) => LostDrop(s, c, r, b, y);
    case Drops(c) => LostDrop(s, c, r, b, y);
    case Retires(x) => LostRetire(s, x, r, b, y);
  }

  lemma LostIn(s: State, b: Bid, y: Sid)
    requires Lost(s, b, y)
    ensures b < |s.blocks| && s.blocks[b].dirty && y !in Queue(s)
  {
    ReverseIn(s.llist, y);
  }

  /** Such a block stays where it is, dirty and unwritten, through any steps of the worker, of syncs, of
      IO completions and of all threads that do not hold the set. */
  lemma {:induction false} LostStays(s: State, acts: seq<Action>, r: State, b: Bid, y: Sid)
    requires Exec(s, acts) == Some(r) && Lost(s, b, y) && Avoids(s, acts, y)
    ensures Lost(r, b, y) && b < |s.blocks| && b < |r.blocks|
    ensures r.blocks[b].writes == s.blocks[b].writes && r.blocks[b].dirty && y !in Queue(r)
    decreases |acts|
  {
    hide Typed, Next, Lost, Queue, Holds;
    LostIn(s, b, y);
    if acts != [] {
      var m := Next(s, acts[0]).value;
      LostStep(s, acts[0], m, b, y);
      LostStays(m, acts[1..], r, b, y);
    }
  }

  // ---- a written block that keeps BL_DIRTY ----

  /** end_write_io as written lets a block go without clearing BL_DIRTY. */
  function KeptDirty(s: State, x: Sid): State
    requires x < |s.sets| && s.sets[x].list != [] && s.sets[x].list[0] < |s.blocks|
  {
    var st := s.sets[x];
    var b := st.list[0];
    WithSet(WithBlock(s, b, s.blocks[b].(owner := None, io := Idle, debited := false)), x, st.(list := st.list[1..]))
  }

  /** Each block let go that way puts nr_dirty one further below the number of blocks it should count,
      wherever it was; letting it go with the flag cleared changes nothing. */
  lemma KeepingDirtyLosesCount(s: State, x: Sid)
    requires SetsOk(s) && x < |s.sets| && s.sets[x].stage == Releasing && s.sets[x].list != []
    ensures s.sets[x].list[0] < |s.blocks|
    ensures KeptDirty(s, x).nrDirty - CountDirty(KeptDirty(s, x).blocks) == s.nrDirty - CountDirty(s.blocks) - 1
    ensures FreedState(s, x).nrDirty - CountDirty(FreedState(s, x).blocks) == s.nrDirty - CountDirty(s.blocks)
  {
    hide CountDirty, SetsOk, SetOk;
    SetAt(s, x);
    var b := s.sets[x].list[0];
    Member(x, s.sets[x], s.blocks, b);
    CountOne(s.blocks, b, KeptDirty(s, x).blocks[b]);
    CountOne(s.blocks, b, FreedState(s, x).blocks[b]);
  }

  /** One block of a finished set let go, as written or as the comment says. */
  datatype Departure = Departure(x: Sid, keeps: bool)

  function AfterLetGo(s: State, d: Departure): Option<State> {
    if d.x < |s.sets| && s.sets[d.x].stage == Releasing && s.sets[d.x].list != []
       && s.sets[d.x].list[0] < |s.blocks| then
      Some(if d.keeps then KeptDirty(s, d.x) else FreedState(s, d.x))
    else None
  }

  function AllLetGo(s: State, ds: seq<Departure>): Option<State>
    decreases |ds|
  {
    if ds == [] then Some(s)
    else
      var r := AfterLetGo(s, ds[0]);
      if r.None? then None else AllLetGo(r.value, ds[1..])
  }

  function Keeping(ds: seq<Departure>): nat {
    if ds == [] then 0 else Keeping(ds[1..]) + if ds[0].keeps then 1 else 0
  }

  lemma LetGoSets(s: State, d: Departure, r: State)
    requires SetsOk(s) && AfterLetGo(s, d) == Some(r)
    ensures SetsOk(r)
  {
    hide SetsOk, SetOk;
    var b := s.sets[d.x].list[0];
    SetAt(s, d.x);
    Member(d.x, s.sets[d.x], s.blocks, b);
    FreeSet(d.x, s.sets[d.x], s.blocks, r.blocks[b]);
    OtherSetsKeep(s, r, {d.x});
    AllSets(r, {d.x});
  }

  /** Over any sequence of releases nr_dirty falls behind by as many as kept the flag. */
  lemma {:induction false} LettingGoLosesCount(s: State, ds: seq<Departure>, r: State)
    requires SetsOk(s) && AllLetGo(s, ds) == Some(r)
    ensures r.nrDirty - CountDirty(r.blocks) == s.nrDirty - CountDirty(s.blocks) - Keeping(ds)
    decreases |ds|
  {
    hide CountDirty, SetsOk, AfterLetGo;
    if ds != [] {
      var m := AfterLetGo(s, ds[0]).value;
      LetGoSets(s, ds[0], m);
      LetGoCount(s, ds[0], m);
      LettingGoLosesCount(m, ds[1..], r);
    }
  }

  lemma LetGoCount(s: State, d: Departure, r: State)
    requires SetsOk(s) && AfterLetGo(s, d) == Some(r)
    ensures r.nrDirty - CountDirty(r.blocks) == s.nrDirty - CountDirty(s.blocks) - if d.keeps then 1 else 0
  {
    hide CountDirty, SetsOk, KeptDirty, FreedState;
    KeepingDirtyLosesCount(s, d.x);
  }

  lemma {:induction false} KeepingNone(ds: seq<Departure>)
    ensures Keeping(ds) == 0 <==> forall k :: 0 <= k < |ds| ==> !ds[k].keeps
  {
    if ds != [] {
      KeepingNone(ds[1..]);
      assert forall k :: 0 < k < |ds| ==> ds[k] == ds[1..][k - 1];
    }
  }

  /** From any reachable state the counter is exact after such a sequence exactly if none of the releases
      kept the flag. */
  lemma CountStaysExactIff(s: State, ds: seq<Departure>, r: State)
    requires Reachable(s) && AllLetGo(s, ds) == Some(r)
    ensures r.nrDirty == CountDirty(r.blocks) <==> forall k :: 0 <= k < |ds| ==> !ds[k].keeps
  {
    hide Reachable, CountDirty, CountWriteback, CountCounted, SumSubmitted, SetsOk, BlocksOk, ThreadsOk, HeldsOk, InTurn;
    hide WorkerOk, SyncsOk, AllLetGo, Keeping;
    ReachableHolds(s);
    LettingGoLosesCount(s, ds, r);
    KeepingNone(ds);
  }

  // ---- taking a number and pushing in two steps ----

  function TakeNumber(s: State, x: Sid): State
    requires x < |s.sets|
  {
    s.(sets := s.sets[x := s.sets[x].(dirty := true, dirtySeq := s.dirtySeq + 1, stage := Pending)],
       dirtySeq := s.dirtySeq + 1)
  }

  function PushOnly(s: State, x: Sid): State {
    s.(llist := [x] + s.llist)
  }

  /** Two threads take numbers for x and then y. The queue is in order exactly when they also push
      in that order, which nothing in the code ensures. */
  lemma PushOrderMatters(s: State, x: Sid, y: Sid, xFirst: bool)
    requires InTurn(s) && x < |s.sets| && y < |s.sets| && x != y
    requires s.sets[x].stage == Open && s.sets[y].stage == Open
    ensures var m := TakeNumber(TakeNumber(s, x), y);
            InTurn(if xFirst then PushOnly(PushOnly(m, x), y) else PushOnly(PushOnly(m, y), x)) <==> xFirst
  {
    hide Reverse;
    var m := TakeNumber(TakeNumber(s, x), y);
    var q := Queue(s);
    if xFirst {
      var r := PushOnly(PushOnly(m, x), y);
      ReversePush(x, s.llist);
      ReversePush(y, [x] + s.llist);
      assert Queue(r) == q + [x, y];
      assert x !in q && y !in q;
      assert (q + [x, y])[|q|] == x && (q + [x, y])[|q| + 1] == y;
    } else {
      var r := PushOnly(PushOnly(m, y), x);
      ReversePush(y, s.llist);
      ReversePush(x, [y] + s.llist);
      assert Queue(r) == q + [y, x];
      assert (q + [y, x])[|q|] == y;
      assert r.sets[Queue(r)[|q|]].dirtySeq != Base(r) + 1 + |q|;
    }
  }

  // ---- gathering ----

  /** del_all_reverse_add_tail: pushing each entry of the last-in-first-out list on the front of a
      private list reverses it, and that goes to the tail. */
  method GatherLoop(list: seq<Sid>, llist: seq<Sid>) returns (r: seq<Sid>)
    ensures r == list + Reverse(llist)
  {
    var reverse: seq<Sid> := [];
    var i := 0;
    while i < |llist|
      invariant 0 <= i <= |llist|
      invariant reverse == Reverse(llist[..i])
    {
      ReverseAppend(llist[..i], llist[i]);
      assert llist[..i + 1] == llist[..i] + [llist[i]];
      reverse := [llist[i]] + reverse;
      i := i + 1;
    }
    assert llist[..i] == llist;
    r := list + reverse;
  }

  lemma {:induction false} ReverseAppend(ids: seq<Sid>, x: Sid)
    ensures Reverse(ids + [x]) == [x] + Reverse(ids)
  {
    var a, c := Reverse(ids + [x]), [x] + Reverse(ids);
    assert |a| == |c|;
    forall k | 0 <= k < |a|
      ensures a[k] == c[k]
    {
      assert a[k] == (ids + [x])[|ids| - k];
    }
  }

  // ---- identifiers stay in range, invariant or not ----

  lemma ReleaseTyped(s: State, t: Tid, pc: Pc, r: State)
    requires Typed(s) && t < |s.threads| && pc == s.threads[t] && pc.Release? && ReleaseOne(s, t, pc) == Some(r)
    ensures Typed(r)
  {
    ReleasePc(s, t, pc, r);
    ReleaseSets(s, t, pc, r);
    hide Typed, PcTyped, ReleaseOne, InRange;
    StepTyped(s, t, r);
  }

  lemma ReleasePc(s: State, t: Tid, pc: Pc, r: State)
    requires Typed(s) && t < |s.threads| && pc == s.threads[t] && pc.Release? && ReleaseOne(s, t, pc) == Some(r)
    ensures t < |r.threads| && r.threads == s.threads[t := r.threads[t]] && PcTyped(r.threads[t], |s.blocks|, |s.sets|)
  {
    if pc.held != [] {
      assert Holds(pc)[0] == pc.held[0];
    }
  }

  lemma ReleaseSets(s: State, t: Tid, pc: Pc, r: State)
    requires Typed(s) && t < |s.threads| && pc == s.threads[t] && pc.Release? && ReleaseOne(s, t, pc) == Some(r)
    ensures |r.blocks| == |s.blocks| && |r.sets| == |s.sets| && r.worker == s.worker && r.list == s.list
    ensures forall b :: 0 <= b < |s.blocks| && r.blocks[b].owner.Some? ==> r.blocks[b].owner.value < |s.sets|
    ensures forall x :: 0 <= x < |s.sets| ==> InRange(r.sets[x].list, |s.blocks|)
    ensures InRange(r.llist, |s.sets|)
  {
    if pc.held != [] {
      assert Holds(pc)[0] == pc.held[0];
    }
  }

  lemma LockTyped(s: State, t: Tid, pc: Pc, r: State)
    requires Typed(s) && t < |s.threads| && pc == s.threads[t]
    requires (pc.Lock? && TryLock(s, t, pc) == Some(r)) || (pc.Merged? && DropSmall(s, t, pc) == Some(r))
    ensures Typed(r)
  {
    if pc.Lock? {
      assert Eyes(pc)[0] == pc.small;
      assert forall k :: 0 <= k < |Seqs(pc.large)| ==> Seqs(pc.large)[k] == Holds(pc)[k];
    } else {
      assert Holds(pc)[0] == pc.first && Holds(pc)[1] == pc.small;
    }
  }

  lemma MovedTyped(s: State, t: Tid, pc: Pc)
    requires Typed(s) && t < |s.threads| && PcTyped(pc, |s.blocks|, |s.sets|)
    ensures Typed(At(s, t, pc))
  {
    hide PcTyped, WorkerTyped, InRange;
  }

  /** A thread between locking a set and going on with it knows only sets that exist. */
  lemma TestingParts(pc: Pc, blocks: nat, sets: nat)
    requires PcTyped(pc, blocks, sets) && (pc.Locked? || pc.Tested?)
    ensures pc.small < sets && InRange(pc.bs, blocks) && pc.i < |pc.bs| && (pc.large.Some? ==> pc.large.value < sets)
  {
    assert Holds(pc)[|Holds(pc)| - 1] == pc.small;
    if pc.large.Some? {
      assert Holds(pc)[0] == pc.large.value;
    }
  }

  lemma TestTyped(s: State, t: Tid, pc: Pc, r: State)
    requires Typed(s) && t < |s.threads| && pc == s.threads[t]
    requires (pc.Locked? && TestWriteback(s, t, pc) == Some(r)) || (pc.Tested? && CheckOwner(s, t, pc) == Some(r))
    ensures Typed(r)
  {
    TestingParts(pc, |s.blocks|, |s.sets|);
    assert r == At(s, t, r.threads[t]);
    TestedTyped(pc, r.threads[t], |s.blocks|, |s.sets|);
    hide Typed, PcTyped, TestWriteback, CheckOwner;
    MovedTyped(s, t, r.threads[t]);
  }

  lemma TestedTyped(pc: Pc, qc: Pc, blocks: nat, sets: nat)
    requires pc.Locked? || pc.Tested?
    requires pc.small < sets && InRange(pc.bs, blocks) && pc.i < |pc.bs| && (pc.large.Some? ==> pc.large.value < sets)
    requires || (qc.Release? && qc.bs == pc.bs && qc.held == [pc.small] + Seqs(pc.large)
                 && (qc.next == Again || qc.next == ForWriteback(pc.small)))
             || qc == Tested(pc.bs, pc.i, pc.large, pc.small)
             || (pc.large.None? && qc == Loop(pc.bs, pc.i + 1, Some(pc.small)))
             || (pc.large.Some? && qc == Both(pc.bs, pc.i, pc.large.value, pc.small))
    ensures PcTyped(qc, blocks, sets)
  {
  }

  /** A step of one thread that adds no set. */
  lemma StepTyped(s: State, t: Tid, r: State)
    requires Typed(s) && t < |s.threads| && t < |r.threads| && r.threads == s.threads[t := r.threads[t]]
    requires |r.blocks| == |s.blocks| && |r.sets| == |s.sets| && r.worker == s.worker && r.list == s.list
    requires PcTyped(r.threads[t], |s.blocks|, |s.sets|) && InRange(r.llist, |s.sets|)
    requires forall b :: 0 <= b < |s.blocks| && r.blocks[b].owner.Some? ==> r.blocks[b].owner.value < |s.sets|
    requires forall x :: 0 <= x < |s.sets| ==> InRange(r.sets[x].list, |s.blocks|)
    ensures Typed(r)
  {
    hide PcTyped, WorkerTyped, InRange;
  }

  lemma LoopingParts(pc: Pc, blocks: nat, sets: nat)
    requires PcTyped(pc, blocks, sets) && pc.Loop?
    ensures InRange(pc.bs, blocks) && |pc.bs| > 0 && pc.i <= |pc.bs| && (pc.large.Some? ==> pc.large.value < sets)
  {
    if pc.large.Some? {
      assert Holds(pc)[0] == pc.large.value;
    }
  }

  lemma LoopTyped(s: State, t: Tid, pc: Pc, r: State)
    requires Typed(s) && t < |s.threads| && pc == s.threads[t] && pc.Loop? && Fetch(s, t, pc) == Some(r)
    ensures Typed(r)
  {
    LoopingParts(pc, |s.blocks|, |s.sets|);
    if pc.i < |pc.bs| && s.blocks[pc.bs[pc.i]].owner.None? {
      if pc.large.None? {
        FreshTyped(s, t, pc.bs, pc.i);
      } else {
        LoopAddsTyped(s, t, pc, r);
      }
    } else {
      assert r == At(s, t, r.threads[t]);
      assert PcTyped(r.threads[t], |s.blocks|, |s.sets|);
      hide Typed, PcTyped, Fetch;
      MovedTyped(s, t, r.threads[t]);
    }
  }

  lemma LoopAddsTyped(s: State, t: Tid, pc: Pc, r: State)
    requires Typed(s) && t < |s.threads| && pc == s.threads[t] && pc.Loop? && Fetch(s, t, pc) == Some(r)
    requires pc.i < |pc.bs| && pc.large.Some? && pc.bs[pc.i] < |s.blocks| && s.blocks[pc.bs[pc.i]].owner.None?
    requires InRange(pc.bs, |s.blocks|) && pc.large.value < |s.sets|
    ensures Typed(r)
  {
    assert PcTyped(r.threads[t], |s.blocks|, |s.sets|);
    StepTyped(s, t, r);
  }

  lemma FreshTyped(s: State, t: Tid, bs: seq<Bid>, i: nat)
    requires Typed(s) && t < |s.threads| && i < |bs| && InRange(bs, |s.blocks|)
    ensures var x, b := |s.sets|, bs[i];
            Typed(At(s.(blocks := s.blocks[b := s.blocks[b].(owner := Some(x))],
                        sets := s.sets + [BlockSet([b], 1, 0, 0, None, false, false, Open)]), t, Lock(bs, i, None, x)))
  {
  }

  lemma MarkTyped(s: State, t: Tid, pc: Pc, r: State)
    requires Typed(s) && t < |s.threads| && pc == s.threads[t]
    requires (pc.Mark? && MarkOne(s, t, pc) == Some(r)) || (pc.Commit? && CommitSet(s, t, pc) == Some(r))
    ensures Typed(r)
  {
    assert Holds(pc)[0] == pc.first && Asked(pc) == pc.bs;
    assert r.threads[t].first == pc.first && r.threads[t].bs == pc.bs;
    assert Holds(r.threads[t]) == Holds(pc);
    assert PcTyped(r.threads[t], |s.blocks|, |s.sets|);
    MarkSets(s, t, pc, r);
    hide Typed, PcTyped, MarkOne, CommitSet, InRange;
    StepTyped(s, t, r);
  }

  lemma MarkSets(s: State, t: Tid, pc: Pc, r: State)
    requires Typed(s) && t < |s.threads| && pc == s.threads[t]
    requires (pc.Mark? && MarkOne(s, t, pc) == Some(r)) || (pc.Commit? && CommitSet(s, t, pc) == Some(r))
    ensures |r.blocks| == |s.blocks| && |r.sets| == |s.sets| && r.worker == s.worker && r.list == s.list
    ensures t < |r.threads| && r.threads == s.threads[t := r.threads[t]]
    ensures forall b :: 0 <= b < |s.blocks| && r.blocks[b].owner.Some? ==> r.blocks[b].owner.value < |s.sets|
    ensures forall x :: 0 <= x < |s.sets| ==> InRange(r.sets[x].list, |s.blocks|)
    ensures InRange(r.llist, |s.sets|)
  {
    assert Holds(pc)[0] == pc.first;
  }

  lemma EndTyped(s: State, t: Tid, pc: Pc, r: State)
    requires Typed(s) && t < |s.threads| && pc == s.threads[t] && pc.Modify? && End(s, t, pc) == Some(r)
    ensures Typed(r)
  {
    assert pc.bs == Asked(pc);
    hide WorkerTyped;
    StepTyped(s, t, r);
  }

  lemma IoTyped(s: State, b: Bid, r: State)
    requires Typed(s) && b < |s.blocks| && (IoDone(s, b) == Some(r) || Drop(s, b) == Some(r))
    ensures Typed(r)
  {
    hide PcTyped, WorkerTyped;
    TypedFrame(s, r);
  }

  lemma BeginTyped(s: State, t: Tid, want: seq<Bid>, r: State)
    requires Typed(s) && Next(s, Begin(t, want)) == Some(r)
    ensures Typed(r)
  {
  }

  lemma RetireTyped(s: State, x: Sid, r: State)
    requires Typed(s) && x < |s.sets| && Retire(s, x) == Some(r)
    ensures Typed(r)
  {
  }

  lemma TypedFrame(s: State, r: State)
    requires Typed(s) && |r.blocks| == |s.blocks| && |r.sets| == |s.sets| && r.threads == s.threads
    requires forall b :: 0 <= b < |s.blocks| ==> r.blocks[b].owner == s.blocks[b].owner
    requires forall x :: 0 <= x < |s.sets| ==> r.sets[x].list == s.sets[x].list
    requires WorkerTyped(r.worker, |r.blocks|, |r.sets|) && InRange(r.llist, |r.sets|) && InRange(r.list, |r.sets|)
    ensures Typed(r)
  {
  }

  lemma WorkBlocks(s: State, r: State)
    requires Typed(s) && WorkerStep(s) == Some(r)
    ensures |r.blocks| == |s.blocks| && r.threads == s.threads
    ensures forall b :: 0 <= b < |s.blocks| ==> r.blocks[b].owner == s.blocks[b].owner
  {
  }

  lemma WorkSets(s: State, r: State)
    requires Typed(s) && WorkerStep(s) == Some(r)
    ensures |r.sets| == |s.sets|
    ensures forall x :: 0 <= x < |s.sets| ==> r.sets[x].list == s.sets[x].list
  {
    var x := if s.worker.Resting? then 0 else if s.worker.Picking? then (if s.list == [] then 0 else s.list[0]) else s.worker.claim;
    assert forall y :: 0 <= y < |s.sets| && y != x ==> r.sets[y] == s.sets[y];
  }

  lemma WorkQueues(s: State, r: State)
    requires Typed(s) && WorkerStep(s) == Some(r)
    ensures WorkerTyped(r.worker, |s.blocks|, |s.sets|) && InRange(r.llist, |s.sets|) && InRange(r.list, |s.sets|)
  {
  }

  lemma WorkTyped(s: State, r: State)
    requires Typed(s) && WorkerStep(s) == Some(r)
    ensures Typed(r)
  {
    hide Typed, WorkerStep;
    WorkBlocks(s, r);
    WorkSets(s, r);
    WorkQueues(s, r);
    TypedFrame(s, r);
  }
}
