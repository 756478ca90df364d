/** Every step of the writeback worker and of IO completions keeps the invariant
    (shared/block.c:431-470, 599-656). */
module DirtyWork {
  import opened Options
  import opened Tally
  import opened DirtySets
  import opened DirtyInvariant
  import opened DirtyFrames
  import opened DirtySteps

  // ---- what no worker or completion step touches ----

  /** The threads stay where they are and so do the DIRTYING bits. */
  lemma ThreadsStay(s: State, r: State)
    requires Inv(s) && r.threads == s.threads && |r.sets| == |s.sets| && |r.blocks| == |s.blocks|
    requires forall x :: 0 <= x < |s.sets| ==> r.sets[x].dirtying == s.sets[x].dirtying
    requires forall x :: 0 <= x < |s.sets| && s.sets[x].dirtying.Some? ==> SameForOwner(s.sets[x], r.sets[x])
    requires forall b :: 0 <= b < |s.blocks| ==>
               || (r.blocks[b].owner == s.blocks[b].owner && r.blocks[b].dirty == s.blocks[b].dirty)
               || (s.blocks[b].owner.Some? && s.blocks[b].owner.value < |s.sets|
                   && !Calm(s.sets[s.blocks[b].owner.value].stage))
    ensures ThreadsOk(r) && HeldsOk(r)
  {
    hide SetsOk, BlocksOk, ThreadsOk, InTurn, WorkerOk, CountsOk, ThreadOk;
    var t := |s.threads|;
    assert SameForOwners(s, r, t);
    OtherThreadsKeep(s, r, t);
    assert ThreadsOk(r) by { EveryThread(r); }
    forall x | 0 <= x < |r.sets|
      ensures Held(x, r.sets[x], r.threads)
    {
      assert Held(x, s.sets[x], s.threads);
    }
  }

  lemma EveryThread(r: State)
    requires forall u :: 0 <= u < |r.threads| ==> ThreadOk(u, r.threads[u], r.blocks, r.sets)
    ensures ThreadsOk(r)
  {
    hide ThreadOk;
  }

  lemma TurnFrame(s: State, r: State)
    requires InTurn(s) && Queue(r) == Queue(s) && Base(r) == Base(s) && r.dirtySeq == s.dirtySeq
    requires |r.sets| == |s.sets|
    requires forall x :: 0 <= x < |s.sets| ==>
               && r.sets[x].dirtySeq == s.sets[x].dirtySeq
               && (r.sets[x].stage == Pending <==> s.sets[x].stage == Pending)
    ensures InTurn(r)
  {
    hide Reverse;
  }

  predicate Late(stage: Stage) {
    stage == Flying || stage == Finishing || stage == Releasing || stage == Done
  }

  /** The blocks the worker still has to submit. */
  function Todo(w: Worker): seq<Bid> {
    if w.Submitting? then w.todo else []
  }

  lemma WorkerFrame(s: State, r: State)
    requires WorkerOk(s) && r.worker == s.worker && r.list == s.list && r.writebackSeq == s.writebackSeq
    requires |r.sets| == |s.sets| && |r.blocks| == |s.blocks|
    requires forall x :: 0 <= x < |s.sets| ==>
               && r.sets[x].dirtySeq == s.sets[x].dirtySeq
               && (r.sets[x] == s.sets[x] || (Late(s.sets[x].stage) && Late(r.sets[x].stage)))
    requires InRange(Todo(s.worker), |s.blocks|)
    requires AllIo(Todo(s.worker), r.blocks, Owed) && AllFlying(Todo(s.worker), r.blocks, r.sets)
    ensures WorkerOk(r)
  {
    hide Distinct;
  }

  lemma TodoAt(s: State)
    requires WorkerOk(s)
    ensures InRange(Todo(s.worker), |s.blocks|)
    ensures AllIo(Todo(s.worker), s.blocks, Owed) && AllFlying(Todo(s.worker), s.blocks, s.sets)
    ensures Distinct(Todo(s.worker))
  {
  }

  lemma SyncsStay(s: State, r: State)
    requires SyncsOk(s) && r.threads == s.threads && r.writebackSeq >= s.writebackSeq
    ensures SyncsOk(r)
  {
  }

  // ---- steps that only move the worker ----

  lemma WorkerMoves(s: State, r: State)
    requires Inv(s)
    requires r == s.(worker := r.worker, list := r.list, llist := r.llist, writebackSeq := r.writebackSeq)
    requires Queue(r) == Queue(s) && Base(r) == Base(s) && WorkerOk(r) && r.writebackSeq >= s.writebackSeq
    requires !s.worker.Counting? && !r.worker.Counting?
    ensures Inv(r)
  {
    hide SetOk, BlockOk, ThreadOk, WorkerOk, CountDirty, CountWriteback, CountCounted, SumSubmitted;
    TurnFrame(s, r);
    SyncsStay(s, r);
  }

  lemma GatherKeeps(s: State)
    requires Inv(s) && s.worker.Resting?
    ensures Inv(s.(list := s.list + Reverse(s.llist), llist := [], worker := Picking))
  {
    hide SetsOk, BlocksOk, ThreadsOk, HeldsOk, InTurn, CountsOk, SyncsOk;
    var r := s.(list := s.list + Reverse(s.llist), llist := [], worker := Picking);
    assert Reverse([]) == [];
    assert Queue(r) == Queue(s);
    WorkerMoves(s, r);
  }

  lemma RestKeeps(s: State)
    requires Inv(s) && (s.worker.Picking? || s.worker.Waiting?)
    ensures Inv(s.(worker := Resting))
  {
    hide SetsOk, BlocksOk, ThreadsOk, HeldsOk, InTurn, CountsOk, SyncsOk;
    WorkerMoves(s, s.(worker := Resting));
  }

  // ---- claiming a set ----

  lemma FirstPending(s: State)
    requires InTurn(s) && s.list != []
    ensures s.list[0] < |s.sets| && s.sets[s.list[0]].stage == Pending
    ensures s.sets[s.list[0]].dirtySeq == Base(s) + 1
  {
    hide Reverse;
    assert Queue(s)[0] == s.list[0];
  }

  function Flagged(s: State, x: Sid, w: bool): State
    requires x < |s.sets|
  {
    WithSet(s, x, s.sets[x].(writeback := w)).(worker := if w then Testing(x) else Waiting(x))
  }

  /** Setting or clearing WRITEBACK on the first pending set. */
  lemma FlagKeeps(s: State, x: Sid, w: bool)
    requires Inv(s) && s.list != [] && x == s.list[0] && x < |s.sets|
    requires s.worker == if w then Picking else Backing(x)
    ensures Inv(Flagged(s, x, w))
  {
    hide SetsOk, BlocksOk, ThreadsOk, HeldsOk, InTurn, WorkerOk, CountsOk, SyncsOk, Inv, SetOk;
    var r := Flagged(s, x, w);
    InvParts(s);
    FirstPending(s);
    SetAt(s, x);
    assert SetsOk(r) by {
      OtherSetsKeep(s, r, {x});
      assert SetOk(x, r.sets[x], r.blocks) by { FlagOk(x, s.sets[x], s.blocks, w); }
      AllSets(r, {x});
    }
    assert BlocksOk(r) by { SameLists(s, r); }
    ThreadsStay(s, r);
    TurnFrame(s, r);
    assert WorkerOk(r) by { FlagWorker(s, x, w); }
    assert CountsOk(r) by { FlagCounts(s, x, w); }
    assert SyncsOk(r) by { SyncsOf(s); SyncsStay(s, r); }
    AllParts(r);
  }

  lemma SyncsOf(s: State)
    requires Inv(s)
    ensures SyncsOk(s)
  {
    hide SyncsOk;
  }

  lemma FlagOk(x: Sid, st: BlockSet, blocks: seq<Block>, w: bool)
    requires SetOk(x, st, blocks) && st.stage == Pending
    ensures SetOk(x, st.(writeback := w), blocks)
  {
  }

  lemma FlagWorker(s: State, x: Sid, w: bool)
    requires WorkerOk(s) && s.list != [] && x == s.list[0] && x < |s.sets|
    requires s.sets[x].stage == Pending && s.worker == if w then Picking else Backing(x)
    ensures WorkerOk(Flagged(s, x, w))
  {
  }

  lemma FlagCounts(s: State, x: Sid, w: bool)
    requires CountsOk(s) && x < |s.sets| && !s.worker.Counting?
    ensures CountsOk(Flagged(s, x, w))
  {
    hide CountDirty, CountWriteback, CountCounted, SumSubmitted;
    SumFrame(s.sets, Flagged(s, x, w).sets);
  }

  /** WRITEBACK is never set already when the worker sets it: the BUG_ON does not fire. */
  lemma ClaimIsFresh(s: State)
    requires Inv(s) && s.worker == Picking && s.list != []
    ensures s.list[0] < |s.sets| && !s.sets[s.list[0]].writeback
  {
    hide SetsOk, BlocksOk, ThreadsOk, HeldsOk, CountsOk, InTurn;
    FirstPending(s);
  }

  // ---- taking a set ----

  function TakenState(s: State, x: Sid): State
    requires x < |s.sets| && s.list != []
  {
    WithSet(s, x, s.sets[x].(stage := Taken)).(list := s.list[1..], worker := Charging(x))
  }

  lemma TakeKeeps(s: State, x: Sid)
    requires Inv(s) && s.worker == Testing(x) && s.list != [] && x == s.list[0] && x < |s.sets|
    requires s.sets[x].dirtying.None?
    ensures Inv(TakenState(s, x))
  {
    hide SetsOk, BlocksOk, ThreadsOk, HeldsOk, InTurn, WorkerOk, CountsOk, SyncsOk, Inv, SetOk;
    hide CountDirty, CountWriteback, CountCounted, SumSubmitted;
    var r := TakenState(s, x);
    InvParts(s);
    FirstPending(s);
    SetAt(s, x);
    TakeWorker(s, x);
    assert SetsOk(r) by {
      OtherSetsKeep(s, r, {x});
      assert SetOk(x, r.sets[x], r.blocks) by { TakenOk(x, s.sets[x], s.blocks); }
      AllSets(r, {x});
    }
    assert BlocksOk(r) by { SameLists(s, r); }
    ThreadsStay(s, r);
    TakeTurn(s, x);
    assert CountsOk(r) by { TakeCounts(s, x); }
    assert SyncsOk(r) by { SyncsOf(s); SyncsStay(s, r); }
    AllParts(r);
  }

  lemma TakenOk(x: Sid, st: BlockSet, blocks: seq<Block>)
    requires SetOk(x, st, blocks) && st.stage == Pending && st.dirtying.None? && st.writeback
    ensures SetOk(x, st.(stage := Taken), blocks)
  {
  }

  lemma TakeTurn(s: State, x: Sid)
    requires InTurn(s) && s.worker == Testing(x) && s.list != [] && x == s.list[0] && x < |s.sets|
    requires s.sets[x].stage == Pending && s.sets[x].dirtySeq == Base(s) + 1
    ensures InTurn(TakenState(s, x))
  {
    hide Reverse;
    var r := TakenState(s, x);
    var q, q1 := Queue(s), Queue(r);
    assert q1 == q[1..] by { assert q[1..] == s.list[1..] + Reverse(s.llist); }
    forall j | 0 <= j < |q1|
      ensures q1[j] < |r.sets| && r.sets[q1[j]].stage == Pending && r.sets[q1[j]].dirtySeq == Base(r) + 1 + j
    {
      assert q1[j] == q[j + 1];
    }
    forall y | 0 <= y < |r.sets| && r.sets[y].stage == Pending
      ensures y in q1
    {
      assert y in q && y != q[0];
      var k :| 0 <= k < |q| && q[k] == y;
      assert q1[k - 1] == y;
    }
  }

  lemma TakeWorker(s: State, x: Sid)
    requires WorkerOk(s) && s.worker == Testing(x) && s.list != [] && x == s.list[0] && x < |s.sets|
    requires s.sets[x].stage == Pending && s.sets[x].dirtySeq == Base(s) + 1
    ensures WorkerOk(TakenState(s, x)) && s.sets[x].writeback
  {
  }

  lemma TakeCounts(s: State, x: Sid)
    requires CountsOk(s) && s.worker == Testing(x) && s.list != [] && x < |s.sets|
    ensures CountsOk(TakenState(s, x))
  {
    hide CountDirty, CountWriteback, CountCounted, SumSubmitted;
    SumFrame(s.sets, TakenState(s, x).sets);
  }

  // ---- charging it to nr_writeback ----

  function ChargedState(s: State, x: Sid): State
    requires x < |s.sets|
  {
    var st := s.sets[x];
    WithSet(s, x, st.(stage := Charged)).(
      blocks := Charge(s.blocks, st.list), nrWriteback := s.nrWriteback + st.size, worker := Counting(x))
  }

  lemma ChargeSet(x: Sid, st: BlockSet, blocks: seq<Block>)
    requires SetOk(x, st, blocks) && st.stage == Taken
    ensures SetOk(x, st.(stage := Charged), Charge(blocks, st.list))
  {
    var after := Charge(blocks, st.list);
    forall k | 0 <= k < |st.list|
      ensures after[st.list[k]] == blocks[st.list[k]].(io := Owed)
    {
      assert st.list[k] in st.list;
    }
  }

  lemma ChargeKeeps(s: State, x: Sid)
    requires Inv(s) && s.worker == Charging(x) && x < |s.sets| && s.sets[x].size > 0
    ensures Inv(ChargedState(s, x))
  {
    hide SetsOk, BlocksOk, ThreadsOk, HeldsOk, InTurn, WorkerOk, CountsOk, SyncsOk, Inv, SetOk;
    hide CountDirty, CountWriteback, CountCounted, SumSubmitted;
    var r := ChargedState(s, x);
    InvParts(s);
    assert s.sets[x].stage == Taken && s.sets[x].dirtySeq == s.writebackSeq + 1 by { ChargingAt(s, x); }
    SetAt(s, x);
    TakenSize(x, s.sets[x], s.blocks);
    forall b | b in s.sets[x].list
      ensures b < |s.blocks| && s.blocks[b].owner == Some(x)
    {
      Member(x, s.sets[x], s.blocks, b);
    }
    assert SetsOk(r) by {
      OtherSetsKeep(s, r, {x});
      ChargeSet(x, s.sets[x], s.blocks);
      AllSets(r, {x});
    }
    assert BlocksOk(r) by { ChargeBlocks(s, x); }
    ThreadsStay(s, r);
    assert InTurn(r) by { TurnFrame(s, r); }
    assert WorkerOk(r) by { ChargeWorker(s, x); }
    assert CountsOk(r) by { ChargeCounts(s, x); }
    assert SyncsOk(r) by { SyncsOf(s); SyncsStay(s, r); }
    AllParts(r);
  }

  lemma ChargingAt(s: State, x: Sid)
    requires WorkerOk(s) && s.worker == Charging(x)
    ensures x < |s.sets| && s.sets[x].stage == Taken && s.sets[x].dirtySeq == s.writebackSeq + 1
  {
  }

  lemma TakenSize(x: Sid, st: BlockSet, blocks: seq<Block>)
    requires SetOk(x, st, blocks) && st.stage != Releasing
    ensures |st.list| == st.size && InRange(st.list, |blocks|)
  {
  }

  /** What every block in a set's list is like. */
  lemma Member(x: Sid, st: BlockSet, blocks: seq<Block>, b: Bid)
    requires SetOk(x, st, blocks) && b in st.list
    ensures b < |blocks| && blocks[b].owner == Some(x) && blocks[b].debited == (st.stage == Releasing)
    ensures !Calm(st.stage) ==> blocks[b].dirty
    ensures st.stage == Taken ==> blocks[b].io == Idle
    ensures st.stage == Charged ==> blocks[b].io == Owed
    ensures st.stage == Flying ==> blocks[b].io != Idle
    ensures st.stage == Finishing || st.stage == Releasing ==> blocks[b].io == Finished
    ensures Calm(st.stage) || st.stage == Taken || st.stage == Done || st.stage == Dead ==> blocks[b].io == Idle
  {
    var k :| 0 <= k < |st.list| && st.list[k] == b;
  }

  lemma ChargeBlocks(s: State, x: Sid)
    requires BlocksOk(s) && x < |s.sets|
    requires forall b :: b in s.sets[x].list ==> b < |s.blocks| && s.blocks[b].owner == Some(x)
    ensures BlocksOk(ChargedState(s, x))
  {
    var r := ChargedState(s, x);
    forall c | 0 <= c < |r.blocks|
      ensures BlockOk(c, r.blocks[c], r.sets)
    {
      assert BlockOk(c, s.blocks[c], s.sets);
    }
  }

  lemma ChargeWorker(s: State, x: Sid)
    requires WorkerOk(s) && s.worker == Charging(x) && x < |s.sets| && s.sets[x].list != []
    ensures WorkerOk(ChargedState(s, x))
  {
  }

  /** Putting a list of idle blocks into writeback adds its length to the count. */
  lemma {:induction false} CountCharge(blocks: seq<Block>, list: seq<Bid>)
    requires InRange(list, |blocks|) && Distinct(list) && AllIo(list, blocks, Idle)
    ensures CountWriteback(Charge(blocks, list)) == CountWriteback(blocks) + |list|
    ensures CountCounted(Charge(blocks, list)) == CountCounted(blocks)
    decreases |list|
  {
    hide CountWriteback, CountCounted, CountDirty;
    if list == [] {
      assert Charge(blocks, list) == blocks;
    } else {
      var n := |list| - 1;
      var b, rest := list[n], list[..n];
      CountCharge(blocks, rest);
      var mid := Charge(blocks, rest);
      assert b !in rest;
      assert Charge(blocks, list) == mid[b := mid[b].(io := Owed)] by {
        assert list == rest + [b];
      }
      CountOne(mid, b, mid[b].(io := Owed));
    }
  }

  lemma ChargeCounts(s: State, x: Sid)
    requires CountsOk(s) && SetsOk(s) && s.worker == Charging(x) && x < |s.sets| && s.sets[x].stage == Taken
    ensures CountsOk(ChargedState(s, x))
  {
    hide CountDirty, CountWriteback, CountCounted, SumSubmitted, SetsOk;
    var r := ChargedState(s, x);
    SetAt(s, x);
    CountCharge(s.blocks, s.sets[x].list);
    CountDirtyFrame(s.blocks, r.blocks);
    SumFrame(s.sets, r.sets);
  }

  // ---- an emptied set ----

  lemma DeadKeeps(s: State, x: Sid)
    requires Inv(s) && s.worker == Charging(x) && x < |s.sets| && s.sets[x].size <= 0
    ensures Inv(WithSet(s, x, s.sets[x].(stage := Dead)).(worker := Advancing(x)))
  {
    hide SetsOk, BlocksOk, ThreadsOk, HeldsOk, InTurn, WorkerOk, CountsOk, SyncsOk, Inv, SetOk;
    hide CountDirty, CountWriteback, CountCounted, SumSubmitted;
    var r := WithSet(s, x, s.sets[x].(stage := Dead)).(worker := Advancing(x));
    InvParts(s);
    ChargingAt(s, x);
    SetAt(s, x);
    assert SetsOk(r) by {
      OtherSetsKeep(s, r, {x});
      assert SetOk(x, r.sets[x], r.blocks) by { DeadOk(x, s.sets[x], s.blocks); }
      AllSets(r, {x});
    }
    assert BlocksOk(r) by { SameLists(s, r); }
    ThreadsStay(s, r);
    assert InTurn(r) by { TurnFrame(s, r); }
    assert WorkerOk(r) by { DeadWorker(s, x, r); }
    assert CountsOk(r) by { DeadCounts(s, x, r); }
    assert SyncsOk(r) by { SyncsOf(s); SyncsStay(s, r); }
    AllParts(r);
  }

  lemma DeadOk(x: Sid, st: BlockSet, blocks: seq<Block>)
    requires SetOk(x, st, blocks) && st.stage == Taken && st.size <= 0
    ensures SetOk(x, st.(stage := Dead), blocks)
  {
  }

  lemma DeadWorker(s: State, x: Sid, r: State)
    requires WorkerOk(s) && s.worker == Charging(x) && x < |s.sets|
    requires r == WithSet(s, x, s.sets[x].(stage := Dead)).(worker := Advancing(x))
    ensures WorkerOk(r)
  {
  }

  lemma DeadCounts(s: State, x: Sid, r: State)
    requires CountsOk(s) && s.worker == Charging(x) && x < |s.sets|
    requires r == WithSet(s, x, s.sets[x].(stage := Dead)).(worker := Advancing(x))
    ensures CountsOk(r)
  {
    hide CountDirty, CountWriteback, CountCounted, SumSubmitted;
    SumFrame(s.sets, r.sets);
  }

  // ---- adding it to submitted_blocks ----

  function CountedState(s: State, x: Sid): State
    requires x < |s.sets|
  {
    var st := s.sets[x];
    WithSet(s, x, st.(submitted := st.submitted + st.size, stage := Flying)).(worker := Submitting(x, st.list))
  }

  lemma {:induction false} AllUnfinished(list: seq<Bid>, blocks: seq<Block>)
    requires InRange(list, |blocks|) && NoneIo(list, blocks, Finished)
    ensures Unfinished(list, blocks) == |list|
  {
    if list != [] {
      AllUnfinished(list[..|list| - 1], blocks);
    }
  }

  lemma CountedSet(x: Sid, st: BlockSet, blocks: seq<Block>)
    requires SetOk(x, st, blocks) && st.stage == Charged && st.list != []
    ensures SetOk(x, st.(submitted := st.submitted + st.size, stage := Flying), blocks)
  {
    AllUnfinished(st.list, blocks);
  }

  lemma CountKeeps(s: State, x: Sid)
    requires Inv(s) && s.worker == Counting(x) && x < |s.sets|
    ensures Inv(CountedState(s, x))
  {
    hide SetsOk, BlocksOk, ThreadsOk, HeldsOk, InTurn, WorkerOk, CountsOk, SyncsOk, Inv, SetOk;
    hide CountDirty, CountWriteback, CountCounted, SumSubmitted;
    var r := CountedState(s, x);
    InvParts(s);
    CountingAt(s, x);
    SetAt(s, x);
    assert SetsOk(r) by {
      OtherSetsKeep(s, r, {x});
      CountedSet(x, s.sets[x], s.blocks);
      AllSets(r, {x});
    }
    assert BlocksOk(r) by { SameLists(s, r); }
    ThreadsStay(s, r);
    assert InTurn(r) by { TurnFrame(s, r); }
    assert WorkerOk(r) by { CountWorker(s, x); }
    assert CountsOk(r) by { CountCounts(s, x); }
    assert SyncsOk(r) by { SyncsOf(s); SyncsStay(s, r); }
    AllParts(r);
  }

  lemma CountingAt(s: State, x: Sid)
    requires WorkerOk(s) && s.worker == Counting(x)
    ensures x < |s.sets| && s.sets[x].stage == Charged && s.sets[x].list != []
  {
  }

  lemma CountWorker(s: State, x: Sid)
    requires WorkerOk(s) && SetsOk(s) && s.worker == Counting(x) && x < |s.sets|
    ensures WorkerOk(CountedState(s, x))
  {
    hide SetsOk, IoOk, BitsOk, Settled, AllDebited;
    var r := CountedState(s, x);
    var list := s.sets[x].list;
    SetAt(s, x);
    assert IoOk(s.sets[x], s.blocks);
    forall k | 0 <= k < |list|
      ensures s.blocks[list[k]].io == Owed && s.blocks[list[k]].owner == Some(x)
    {
      Member(x, s.sets[x], s.blocks, list[k]);
    }
  }

  lemma CountCounts(s: State, x: Sid)
    requires CountsOk(s) && s.worker == Counting(x) && x < |s.sets|
    ensures CountsOk(CountedState(s, x))
  {
    hide CountDirty, CountWriteback, CountCounted, SumSubmitted;
    SumOne(s.sets, x, CountedState(s, x).sets[x]);
  }

  // ---- one block's IO advances ----

  /** A block whose IO is between being charged and being finished sits in a set in flight. */
  lemma InFlight(s: State, b: Bid)
    requires SetsOk(s) && BlocksOk(s) && b < |s.blocks|
    requires s.blocks[b].io == Queued || s.blocks[b].io == Counted
    ensures s.blocks[b].owner.Some? && s.blocks[b].owner.value < |s.sets|
    ensures var x := s.blocks[b].owner.value;
            s.sets[x].stage == Flying && b in s.sets[x].list && SetOk(x, s.sets[x], s.blocks)
  {
    hide SetsOk, BlocksOk, SetOk;
    BlockAt(s, b);
    var x := s.blocks[b].owner.value;
    SetAt(s, x);
    Member(x, s.sets[x], s.blocks, b);
  }

  lemma {:induction false} UnfinishedOne(list: seq<Bid>, blocks: seq<Block>, b: Bid, bl: Block)
    requires InRange(list, |blocks|) && Distinct(list) && b < |blocks|
    ensures Unfinished(list, blocks[b := bl]) ==
            Unfinished(list, blocks)
            + if b in list then One(bl.io != Finished) - One(blocks[b].io != Finished) else 0
  {
    if list != [] {
      var n := |list| - 1;
      assert list == list[..n] + [list[n]];
      UnfinishedOne(list[..n], blocks, b, bl);
    }
  }

  /** A block's IO moves on while its set stays in flight. */
  lemma IoMoves(x: Sid, st: BlockSet, blocks: seq<Block>, b: Bid, bl: Block)
    requires SetOk(x, st, blocks) && st.stage == Flying && b in st.list && b < |blocks|
    requires bl == blocks[b].(io := bl.io, writes := bl.writes) && bl.io != Idle && bl.io != Finished
    requires blocks[b].io != Finished
    ensures SetOk(x, st, blocks[b := bl])
  {
    hide Unfinished;
    UnfinishedOne(st.list, blocks, b, bl);
  }

  /** Submitting the next block, or completing one. */
  lemma IoKeeps(s: State, b: Bid, bl: Block, r: State)
    requires Inv(s) && b < |s.blocks|
    requires r == WithBlock(s, b, bl).(worker := r.worker, nrWriteback := r.nrWriteback)
    requires bl == s.blocks[b].(io := bl.io, writes := bl.writes)
    requires (bl.io == Queued && s.blocks[b].io == Owed && s.worker.Submitting? && s.worker.todo != []
              && b == s.worker.todo[0] && r.worker == Submitting(s.worker.claim, s.worker.todo[1..])
              && r.nrWriteback == s.nrWriteback)
          || (bl.io == Counted && s.blocks[b].io == Queued && r.worker == s.worker
              && r.nrWriteback == s.nrWriteback - 1)
    ensures Inv(r)
  {
    hide SetsOk, BlocksOk, ThreadsOk, HeldsOk, InTurn, WorkerOk, CountsOk, SyncsOk, Inv, SetOk;
    hide CountDirty, CountWriteback, CountCounted, SumSubmitted;
    InvParts(s);
    var x := FlyingSet(s, b);
    assert SetsOk(r) by {
      IoMoves(x, s.sets[x], s.blocks, b, bl);
      OtherSetsKeep(s, r, {x});
      AllSets(r, {x});
    }
    assert BlocksOk(r) by { OneBlock(s, r, b, bl); }
    ThreadsStay(s, r);
    assert InTurn(r) by { TurnFrame(s, r); }
    assert WorkerOk(r) by { IoWorker(s, b, bl, r); }
    assert CountsOk(r) by { IoCounts(s, b, bl, r); }
    assert SyncsOk(r) by { SyncsOf(s); SyncsStay(s, r); }
    AllParts(r);
  }

  lemma FlyingSet(s: State, b: Bid) returns (x: Sid)
    requires SetsOk(s) && BlocksOk(s) && WorkerOk(s) && b < |s.blocks|
    requires s.blocks[b].io == Queued
          || (s.worker.Submitting? && s.worker.todo != [] && b == s.worker.todo[0])
    ensures x < |s.sets| && s.blocks[b].owner == Some(x) && s.sets[x].stage == Flying
    ensures b in s.sets[x].list && SetOk(x, s.sets[x], s.blocks)
  {
    hide SetsOk, BlocksOk, SetOk;
    if s.blocks[b].io == Queued {
      InFlight(s, b);
    } else {
      assert AllFlying(s.worker.todo, s.blocks, s.sets);
    }
    x := s.blocks[b].owner.value;
    SetAt(s, x);
    BlockAt(s, b);
  }

  lemma IoWorker(s: State, b: Bid, bl: Block, r: State)
    requires WorkerOk(s) && b < |s.blocks| && r.sets == s.sets && r.list == s.list && r.writebackSeq == s.writebackSeq
    requires r.blocks == s.blocks[b := bl] && bl.owner == s.blocks[b].owner
    requires (bl.io == Queued && s.worker.Submitting? && s.worker.todo != []
              && b == s.worker.todo[0] && r.worker == Submitting(s.worker.claim, s.worker.todo[1..]))
          || (bl.io == Counted && s.blocks[b].io == Queued && r.worker == s.worker)
    ensures WorkerOk(r)
  {
    if s.worker.Submitting? && r.worker != s.worker {
      var todo := s.worker.todo;
      assert forall k :: 0 <= k < |todo| - 1 ==> todo[1..][k] == todo[k + 1] && todo[k + 1] != b;
    } else if s.worker.Submitting? {
      var todo := s.worker.todo;
      assert forall k :: 0 <= k < |todo| ==> s.blocks[todo[k]].io == Owed;
    }
  }

  lemma IoCounts(s: State, b: Bid, bl: Block, r: State)
    requires CountsOk(s) && b < |s.blocks| && r.sets == s.sets && r.blocks == s.blocks[b := bl]
    requires bl == s.blocks[b].(io := bl.io, writes := bl.writes)
    requires r.nrDirty == s.nrDirty && r.worker.Counting? == s.worker.Counting?
    requires r.worker.Counting? ==> r.worker == s.worker
    requires (bl.io == Queued && s.blocks[b].io == Owed && r.nrWriteback == s.nrWriteback)
          || (bl.io == Counted && s.blocks[b].io == Queued && r.nrWriteback == s.nrWriteback - 1)
    ensures CountsOk(r)
  {
    hide CountDirty, CountWriteback, CountCounted, SumSubmitted;
    CountOne(s.blocks, b, bl);
  }

  // ---- dropping submitted_blocks ----

  lemma {:induction false} NoneUnfinished(list: seq<Bid>, blocks: seq<Block>)
    requires InRange(list, |blocks|) && Unfinished(list, blocks) == 0
    ensures AllIo(list, blocks, Finished)
  {
    if list != [] {
      var n := |list| - 1;
      NoneUnfinished(list[..n], blocks);
      assert forall k :: 0 <= k < n ==> list[..n][k] == list[k];
    }
  }

  function DroppedSet(st: BlockSet): BlockSet {
    var left := st.submitted - 1;
    st.(submitted := left, stage := if left > 0 then st.stage else Finishing)
  }

  lemma DropSet(x: Sid, st: BlockSet, blocks: seq<Block>, b: Bid)
    requires SetOk(x, st, blocks) && st.stage == Flying && b in st.list && b < |blocks| && blocks[b].io == Counted
    ensures SetOk(x, DroppedSet(st), blocks[b := blocks[b].(io := Finished)])
  {
    hide Unfinished;
    var after := blocks[b := blocks[b].(io := Finished)];
    UnfinishedOne(st.list, blocks, b, after[b]);
    if st.submitted == 1 {
      NoneUnfinished(st.list, after);
    }
  }

  lemma DropKeeps(s: State, b: Bid, r: State)
    requires Inv(s) && Typed(s) && b < |s.blocks| && Drop(s, b) == Some(r)
    ensures Inv(r)
  {
    hide SetsOk, BlocksOk, ThreadsOk, HeldsOk, InTurn, WorkerOk, CountsOk, SyncsOk, Inv, SetOk, Typed;
    hide CountDirty, CountWriteback, CountCounted, SumSubmitted;
    InvParts(s);
    InFlight(s, b);
    var x := s.blocks[b].owner.value;
    var bl := s.blocks[b].(io := Finished);
    assert r == WithSet(WithBlock(s, b, bl), x, DroppedSet(s.sets[x]));
    assert SetsOk(r) by {
      DropSet(x, s.sets[x], s.blocks, b);
      OtherSetsKeep(s, r, {x});
      AllSets(r, {x});
    }
    assert BlocksOk(r) by { OneBlock(s, r, b, bl); }
    ThreadsStay(s, r);
    assert InTurn(r) by { TurnFrame(s, r); }
    assert WorkerOk(r) by { DropWorker(s, b, x, r); }
    assert CountsOk(r) by { DropCounts(s, b, x, r); }
    assert SyncsOk(r) by { SyncsOf(s); SyncsStay(s, r); }
    AllParts(r);
  }

  lemma DropWorker(s: State, b: Bid, x: Sid, r: State)
    requires WorkerOk(s) && SetsOk(r) && BlocksOk(r) && b < |s.blocks| && x < |s.sets|
    requires s.sets[x].stage == Flying && s.blocks[b].io == Counted
    requires r == WithSet(WithBlock(s, b, s.blocks[b].(io := Finished)), x, DroppedSet(s.sets[x]))
    ensures WorkerOk(r)
  {
    hide SetsOk, BlocksOk, WorkerOk, SetOk;
    TodoAt(s);
    var todo := Todo(s.worker);
    forall k | 0 <= k < |todo|
      ensures r.blocks[todo[k]] == s.blocks[todo[k]] && r.blocks[todo[k]].owner.Some?
      ensures r.sets[r.blocks[todo[k]].owner.value].stage == Flying
    {
      var c := todo[k];
      assert s.blocks[c].io == Owed;
      BlockAt(r, c);
      var y := r.blocks[c].owner.value;
      SetAt(r, y);
      Member(y, r.sets[y], r.blocks, c);
    }
    assert AllIo(todo, r.blocks, Owed) && AllFlying(todo, r.blocks, r.sets);
    WorkerFrame(s, r);
  }

  lemma DropCounts(s: State, b: Bid, x: Sid, r: State)
    requires CountsOk(s) && WorkerOk(s) && b < |s.blocks| && x < |s.sets|
    requires s.sets[x].stage == Flying && s.blocks[b].io == Counted
    requires r == WithSet(WithBlock(s, b, s.blocks[b].(io := Finished)), x, DroppedSet(s.sets[x]))
    ensures CountsOk(r)
  {
    hide CountDirty, CountWriteback, CountCounted, SumSubmitted;
    CountOne(s.blocks, b, r.blocks[b]);
    SumOne(s.sets, x, r.sets[x]);
    if s.worker.Counting? {
      CountingAt(s, s.worker.claim);
    }
  }

  // ---- retiring a written set ----

  function DebitedState(s: State, x: Sid): State
    requires x < |s.sets|
  {
    var st := s.sets[x];
    WithSet(s, x, st.(size := 0, stage := Releasing)).(
      blocks := Debit(s.blocks, st.list), nrDirty := s.nrDirty - st.size)
  }

  lemma DebitSet(x: Sid, st: BlockSet, blocks: seq<Block>)
    requires SetOk(x, st, blocks) && st.stage == Finishing
    ensures SetOk(x, st.(size := 0, stage := Releasing), Debit(blocks, st.list))
  {
    hide Unfinished;
    var after := Debit(blocks, st.list);
    forall k | 0 <= k < |st.list|
      ensures after[st.list[k]] == blocks[st.list[k]].(debited := true)
    {
      assert st.list[k] in st.list;
    }
  }

  /** Taking a set of dirty blocks out of nr_dirty subtracts its length. */
  lemma {:induction false} CountDebit(blocks: seq<Block>, list: seq<Bid>)
    requires InRange(list, |blocks|) && Distinct(list) && AllDirty(list, blocks) && AllDebited(list, blocks, false)
    ensures CountDirty(Debit(blocks, list)) == CountDirty(blocks) - |list|
    decreases |list|
  {
    hide CountWriteback, CountCounted, CountDirty;
    if list == [] {
      assert Debit(blocks, list) == blocks;
    } else {
      var n := |list| - 1;
      var b, rest := list[n], list[..n];
      CountDebit(blocks, rest);
      var mid := Debit(blocks, rest);
      assert b !in rest;
      assert Debit(blocks, list) == mid[b := mid[b].(debited := true)] by {
        assert list == rest + [b];
      }
      CountOne(mid, b, mid[b].(debited := true));
    }
  }

  lemma DebitKeeps(s: State, x: Sid)
    requires Inv(s) && x < |s.sets| && s.sets[x].stage == Finishing
    ensures Inv(DebitedState(s, x))
  {
    hide SetsOk, BlocksOk, ThreadsOk, HeldsOk, InTurn, WorkerOk, CountsOk, SyncsOk, Inv, SetOk;
    hide CountDirty, CountWriteback, CountCounted, SumSubmitted;
    var r := DebitedState(s, x);
    InvParts(s);
    SetAt(s, x);
    forall b | b in s.sets[x].list
      ensures b < |s.blocks| && s.blocks[b].owner == Some(x) && s.blocks[b].io == Finished
    {
      Member(x, s.sets[x], s.blocks, b);
    }
    assert SetsOk(r) by {
      OtherSetsKeep(s, r, {x});
      DebitSet(x, s.sets[x], s.blocks);
      AllSets(r, {x});
    }
    assert BlocksOk(r) by { DebitBlocks(s, x); }
    ThreadsStay(s, r);
    assert InTurn(r) by { TurnFrame(s, r); }
    assert WorkerOk(r) by {
      TodoAt(s);
      WorkerFrame(s, r);
    }
    assert CountsOk(r) by { DebitCounts(s, x); }
    assert SyncsOk(r) by { SyncsOf(s); SyncsStay(s, r); }
    AllParts(r);
  }

  lemma DebitBlocks(s: State, x: Sid)
    requires BlocksOk(s) && x < |s.sets|
    requires forall b :: b in s.sets[x].list ==> b < |s.blocks| && s.blocks[b].owner == Some(x)
    ensures BlocksOk(DebitedState(s, x))
  {
    var r := DebitedState(s, x);
    forall c | 0 <= c < |r.blocks|
      ensures BlockOk(c, r.blocks[c], r.sets)
    {
      assert BlockOk(c, s.blocks[c], s.sets);
    }
  }

  lemma DebitCounts(s: State, x: Sid)
    requires CountsOk(s) && SetsOk(s) && WorkerOk(s) && x < |s.sets| && s.sets[x].stage == Finishing
    ensures CountsOk(DebitedState(s, x))
  {
    hide CountDirty, CountWriteback, CountCounted, SumSubmitted, SetsOk, IoOk;
    var r := DebitedState(s, x);
    SetAt(s, x);
    CountDebit(s.blocks, s.sets[x].list);
    CountsFrame(s.blocks, r.blocks);
    SumFrame(s.sets, r.sets);
    if s.worker.Counting? {
      CountingAt(s, s.worker.claim);
    }
  }

  /** The state after the first block of a written set was let go. */
  function FreedState(s: State, x: Sid): State
    requires x < |s.sets| && s.sets[x].list != [] && s.sets[x].list[0] < |s.blocks|
  {
    var st := s.sets[x];
    var b := st.list[0];
    WithSet(WithBlock(s, b, s.blocks[b].(owner := None, dirty := false, io := Idle, debited := false)),
            x, st.(list := st.list[1..]))
  }

  lemma FreeSet(x: Sid, st: BlockSet, blocks: seq<Block>, bl: Block)
    requires SetOk(x, st, blocks) && st.stage == Releasing && st.list != []
    ensures SetOk(x, st.(list := st.list[1..]), blocks[st.list[0] := bl])
  {
    hide Unfinished;
    var rest := st.list[1..];
    assert forall k :: 0 <= k < |rest| ==> rest[k] == st.list[k + 1] && st.list[k + 1] != st.list[0];
  }

  lemma FreeKeeps(s: State, x: Sid)
    requires Inv(s) && x < |s.sets| && s.sets[x].stage == Releasing && s.sets[x].list != []
    requires s.sets[x].list[0] < |s.blocks|
    ensures Inv(FreedState(s, x))
  {
    hide SetsOk, BlocksOk, ThreadsOk, HeldsOk, InTurn, WorkerOk, CountsOk, SyncsOk, Inv, SetOk;
    hide CountDirty, CountWriteback, CountCounted, SumSubmitted;
    var r := FreedState(s, x);
    var b := s.sets[x].list[0];
    InvParts(s);
    SetAt(s, x);
    Member(x, s.sets[x], s.blocks, b);
    assert SetsOk(r) by {
      FreeSet(x, s.sets[x], s.blocks, r.blocks[b]);
      OtherSetsKeep(s, r, {x});
      AllSets(r, {x});
    }
    assert BlocksOk(r) by { FreeBlocks(s, x, r); }
    ThreadsStay(s, r);
    assert InTurn(r) by { TurnFrame(s, r); }
    assert WorkerOk(r) by {
      TodoAt(s);
      WorkerFrame(s, r);
    }
    assert CountsOk(r) by { FreeCounts(s, x, r); }
    assert SyncsOk(r) by { SyncsOf(s); SyncsStay(s, r); }
    AllParts(r);
  }

  lemma FreeBlocks(s: State, x: Sid, r: State)
    requires BlocksOk(s) && x < |s.sets| && s.sets[x].list != []
    requires s.sets[x].list[0] < |s.blocks|
    requires r == FreedState(s, x)
    ensures BlocksOk(r)
  {
    var b := s.sets[x].list[0];
    forall c | 0 <= c < |r.blocks|
      ensures BlockOk(c, r.blocks[c], r.sets)
    {
      assert BlockOk(c, s.blocks[c], s.sets);
      if c != b && s.blocks[c].owner == Some(x) {
        var k :| 0 <= k < |s.sets[x].list| && s.sets[x].list[k] == c;
        assert r.sets[x].list[k - 1] == c;
      }
    }
  }

  lemma FreeCounts(s: State, x: Sid, r: State)
    requires CountsOk(s) && SetsOk(s) && WorkerOk(s) && x < |s.sets| && s.sets[x].stage == Releasing
    requires s.sets[x].list != [] && s.sets[x].list[0] < |s.blocks| && r == FreedState(s, x)
    ensures CountsOk(r)
  {
    hide CountDirty, CountWriteback, CountCounted, SumSubmitted, SetsOk, SetOk;
    var b := s.sets[x].list[0];
    SetAt(s, x);
    Member(x, s.sets[x], s.blocks, b);
    CountOne(s.blocks, b, r.blocks[b]);
    SumFrame(s.sets, r.sets);
    if s.worker.Counting? {
      CountingAt(s, s.worker.claim);
    }
  }

  lemma DoneKeeps(s: State, x: Sid, r: State)
    requires Inv(s) && x < |s.sets| && s.sets[x].stage == Releasing && s.sets[x].list == []
    requires r == WithSet(s, x, s.sets[x].(writeback := false, stage := Done))
    ensures Inv(r)
  {
    hide SetsOk, BlocksOk, ThreadsOk, HeldsOk, InTurn, WorkerOk, CountsOk, SyncsOk, Inv, SetOk;
    hide CountDirty, CountWriteback, CountCounted, SumSubmitted;
    InvParts(s);
    SetAt(s, x);
    assert SetsOk(r) by {
      OtherSetsKeep(s, r, {x});
      assert SetOk(x, r.sets[x], r.blocks) by { DoneOk(x, s.sets[x], s.blocks); }
      AllSets(r, {x});
    }
    assert BlocksOk(r) by { SameLists(s, r); }
    ThreadsStay(s, r);
    assert InTurn(r) by { TurnFrame(s, r); }
    assert WorkerOk(r) by {
      TodoAt(s);
      NotTodo(s, x);
      WorkerFrame(s, r);
    }
    assert CountsOk(r) by { DoneCounts(s, x, r); }
    assert SyncsOk(r) by { SyncsOf(s); SyncsStay(s, r); }
    AllParts(r);
  }

  lemma NotTodo(s: State, x: Sid)
    requires WorkerOk(s) && x < |s.sets| && s.sets[x].stage == Releasing
    ensures var r := WithSet(s, x, s.sets[x].(writeback := false, stage := Done));
            InRange(Todo(s.worker), |s.blocks|) && AllFlying(Todo(s.worker), r.blocks, r.sets)
  {
    hide WorkerOk;
    TodoAt(s);
    var todo := Todo(s.worker);
    forall k | 0 <= k < |todo|
      ensures s.blocks[todo[k]].owner.Some? && s.blocks[todo[k]].owner.value < |s.sets|
      ensures s.sets[s.blocks[todo[k]].owner.value].stage == Flying && s.blocks[todo[k]].owner.value != x
    {
      assert todo[k] < |s.blocks|;
    }
  }

  lemma DoneOk(x: Sid, st: BlockSet, blocks: seq<Block>)
    requires SetOk(x, st, blocks) && st.stage == Releasing && st.list == []
    ensures SetOk(x, st.(writeback := false, stage := Done), blocks)
  {
  }

  lemma DoneCounts(s: State, x: Sid, r: State)
    requires CountsOk(s) && WorkerOk(s) && x < |s.sets| && s.sets[x].stage == Releasing
    requires r == WithSet(s, x, s.sets[x].(writeback := false, stage := Done))
    ensures CountsOk(r)
  {
    hide CountDirty, CountWriteback, CountCounted, SumSubmitted;
    SumFrame(s.sets, r.sets);
    if s.worker.Counting? {
      CountingAt(s, s.worker.claim);
    }
  }

  lemma RetireKeeps(s: State, x: Sid, r: State)
    requires Inv(s) && Typed(s) && x < |s.sets| && Retire(s, x) == Some(r)
    ensures Inv(r)
  {
    hide SetsOk, BlocksOk, ThreadsOk, HeldsOk, InTurn, WorkerOk, CountsOk, SyncsOk, Inv;
    if s.sets[x].stage.Finishing? {
      DebitKeeps(s, x);
    } else if s.sets[x].list != [] {
      FreeKeeps(s, x);
    } else {
      DoneKeeps(s, x, r);
    }
  }

  lemma IoDoneKeeps(s: State, b: Bid, r: State)
    requires Inv(s) && Typed(s) && b < |s.blocks| && IoDone(s, b) == Some(r)
    ensures Inv(r)
  {
    hide Inv, Typed;
    IoKeeps(s, b, r.blocks[b], r);
  }

  // ---- the worker's steps together ----

  lemma AdvanceKeeps(s: State)
    requires Inv(s) && s.worker.Advancing?
    ensures Inv(s.(writebackSeq := s.writebackSeq + 1, worker := Picking))
  {
    hide SetsOk, BlocksOk, ThreadsOk, HeldsOk, InTurn, CountsOk, SyncsOk;
    WorkerMoves(s, s.(writebackSeq := s.writebackSeq + 1, worker := Picking));
  }

  lemma SubmitKeeps(s: State, r: State)
    requires Inv(s) && Typed(s) && s.worker.Submitting? && WorkerStep(s) == Some(r)
    ensures Inv(r)
  {
    hide SetsOk, BlocksOk, ThreadsOk, HeldsOk, InTurn, CountsOk, SyncsOk, Typed;
    var todo := s.worker.todo;
    if todo == [] {
      WorkerMoves(s, r);
    } else {
      var b := todo[0];
      assert s.blocks[b].io == Owed;
      IoKeeps(s, b, s.blocks[b].(io := Queued), r);
    }
  }

  lemma BackKeeps(s: State, r: State)
    requires Inv(s) && Typed(s) && (s.worker.Testing? || s.worker.Backing?) && WorkerStep(s) == Some(r)
    ensures Inv(r)
  {
    hide SetsOk, BlocksOk, ThreadsOk, HeldsOk, InTurn, CountsOk, SyncsOk, Typed;
    var x := s.worker.claim;
    if s.worker.Backing? {
      FlagKeeps(s, x, false);
    } else if s.sets[x].dirtying.Some? {
      WorkerMoves(s, r);
    } else {
      TakeKeeps(s, x);
    }
  }

  lemma WorkKeeps(s: State, r: State)
    requires Inv(s) && Typed(s) && WorkerStep(s) == Some(r)
    ensures Inv(r)
  {
    hide Inv, Typed;
    match s.worker
    case Resting => GatherKeeps(s);
    case Picking =>
      if s.list == [] {
        RestKeeps(s);
      } else {
        PickAt(s);
        FlagKeeps(s, s.list[0], true);
      }
    case Testing(x) => BackKeeps(s, r);
    case Backing(x) => BackKeeps(s, r);
    case Waiting(x) => RestKeeps(s);
    case Charging(x) =>
      ClaimAt(s);
      if s.sets[x].size > 0 {
        ChargeKeeps(s, x);
      } else {
        DeadKeeps(s, x);
      }
    case Counting(x) =>
      ClaimAt(s);
      CountKeeps(s, x);
    case Submitting(x, todo) => SubmitKeeps(s, r);
    case Advancing(x) => AdvanceKeeps(s);
  }

  lemma ClaimAt(s: State)
    requires Typed(s) && (s.worker.Charging? || s.worker.Counting?)
    ensures s.worker.claim < |s.sets|
  {
  }

  lemma PickAt(s: State)
    requires Inv(s) && s.list != []
    ensures s.list[0] < |s.sets|
  {
    hide SetsOk, BlocksOk, ThreadsOk, HeldsOk, InTurn, WorkerOk, CountsOk, SyncsOk;
    FirstPending(s);
  }
}
