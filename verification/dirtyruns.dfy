/** What holds in every interleaving of dirtying threads, the writeback worker and IO completions
    (shared/block.c:330-351, 431-470, 599-656, 734-1007). */
module DirtyRuns {
  import opened Options
  import opened DirtySets
  import opened DirtyInvariant
  import opened DirtyFrames
  import opened DirtySteps
  import opened DirtyWork

  // ---- runs ----

  /** The state after a sequence of steps, if each was possible. */
  function Exec(s: State, acts: seq<Action>): Option<State>
    decreases |acts|
  {
    if acts == [] then Some(s)
    else if !Typed(s) then None
    else
      var r := Next(s, acts[0]);
      if r.None? then None else Exec(r.value, acts[1..])
  }

  lemma InitialHolds(s: State)
    requires Initial(s)
    ensures Inv(s)
  {
    assert Queue(s) == [];
    NothingCounted(s.blocks);
  }

  lemma {:induction false} NothingCounted(blocks: seq<Block>)
    requires forall b :: 0 <= b < |blocks| ==> blocks[b] == Block(None, false, Idle, false, 0)
    ensures CountDirty(blocks) == 0 && CountWriteback(blocks) == 0 && CountCounted(blocks) == 0
  {
    if blocks != [] {
      NothingCounted(blocks[..|blocks| - 1]);
    }
  }

  /** Every step of every context keeps the invariant. */
  lemma StepKeeps(s: State, a: Action, r: State)
    requires Inv(s) && Typed(s) && Next(s, a) == Some(r)
    ensures Inv(r) && Typed(r)
  {
    hide Inv, Typed, DirtierStep, FailStep, SyncStep, WorkerStep, IoDone, Drop, Retire;
    match a {
      case Begin(t, want) => BeginKeeps(s, t, want);
      case Dirtier(t) => DirtierKeeps(s, t, r);
      case Fails(t) => FailKeeps(s, t, r);
      case Sync(t) => SyncKeeps(s, t, r);
      case Work => WorkKeeps(s, r);
      case WorkStops => RestKeeps(s);
      case Completes(b) => IoDoneKeeps(s, b, r);
      case Drops(b) => DropKeeps(s, b, r);
      case Retires(x) => RetireKeeps(s, x, r);
    }
    InvTyped(r);
  }

  /** The invariant holds after every run from an initial state. */
  lemma {:induction false} RunKeeps(s: State, acts: seq<Action>, r: State)
    requires Inv(s) && Exec(s, acts) == Some(r)
    ensures Inv(r) && Typed(r)
    decreases |acts|
  {
    hide Inv, Typed, Next;
    InvTyped(s);
    if acts != [] {
      var m := Next(s, acts[0]).value;
      StepKeeps(s, acts[0], m);
      RunKeeps(m, acts[1..], r);
    }
  }

  ghost predicate Reachable(s: State) {
    exists s0: State, acts: seq<Action> :: Initial(s0) && Exec(s0, acts) == Some(s)
  }

  lemma ReachableHolds(s: State)
    requires Reachable(s)
    ensures Inv(s) && Typed(s)
  {
    hide Inv, Typed, Exec;
    var s0: State, acts: seq<Action> :| Initial(s0) && Exec(s0, acts) == Some(s);
    InitialHolds(s0);
    RunKeeps(s0, acts, s);
  }

  lemma {:induction false} ExecMore(s: State, acts: seq<Action>, m: State, a: Action, r: State)
    requires Exec(s, acts) == Some(m) && Typed(m) && Next(m, a) == Some(r)
    ensures Exec(s, acts + [a]) == Some(r)
    decreases |acts|
  {
    hide Typed, Next;
    if acts == [] {
      assert ([] + [a])[1..] == [];
    } else {
      var n := Next(s, acts[0]).value;
      assert (acts + [a])[1..] == acts[1..] + [a];
      ExecMore(n, acts[1..], m, a, r);
    }
  }

  /** Reachable states are closed under steps. */
  lemma ReachableNext(s: State, a: Action, r: State)
    requires Reachable(s) && Typed(s) && Next(s, a) == Some(r)
    ensures Reachable(r) && Typed(r)
  {
    hide Typed, Next, Exec, Inv;
    var s0: State, acts: seq<Action> :| Initial(s0) && Exec(s0, acts) == Some(s);
    ExecMore(s0, acts, s, a, r);
    ReachableHolds(r);
  }

  lemma {:induction false} ExecConcat(s: State, a: seq<Action>, m: State, c: seq<Action>, r: State)
    requires Exec(s, a) == Some(m) && Exec(m, c) == Some(r)
    ensures Exec(s, a + c) == Some(r)
    decreases |a|
  {
    hide Typed, Next;
    if a == [] {
      assert [] + c == c;
    } else {
      assert (a + c)[1..] == a[1..] + c;
      ExecConcat(Next(s, a[0]).value, a[1..], m, c, r);
    }
  }

  /** Reachable states are closed under runs. */
  lemma ReachableRun(s: State, acts: seq<Action>, r: State)
    requires Reachable(s) && Exec(s, acts) == Some(r)
    ensures Reachable(r) && Typed(r)
  {
    hide Typed, Next, Exec, Inv;
    var s0: State, pre: seq<Action> :| Initial(s0) && Exec(s0, pre) == Some(s);
    ExecConcat(s0, pre, s, acts, r);
    ReachableHolds(r);
  }

  // ---- a successful dirty_begin ----

  /** Between dirty_begin and dirty_end all the caller's blocks are dirty and in one set, which is
      queued for writeback, locked by this thread, and none of whose blocks is being written. */
  lemma BlocksAreTogether(s: State, t: Tid, j: nat)
    requires Reachable(s) && t < |s.threads| && s.threads[t].Modify? && j < |s.threads[t].bs|
    ensures var x, b := s.threads[t].first, s.threads[t].bs[j];
            && b < |s.blocks| && x < |s.sets|
            && s.blocks[b].owner == Some(x) && b in s.sets[x].list && s.blocks[b].dirty
            && s.blocks[b].io == Idle && s.sets[x].dirtying == Some(t) && s.sets[x].dirty
            && x in Queue(s)
  {
    hide Reachable, Inv;
    ReachableHolds(s);
    HeldTogether(s, t, j);
  }

  lemma HeldTogether(s: State, t: Tid, j: nat)
    requires Inv(s) && t < |s.threads| && s.threads[t].Modify? && j < |s.threads[t].bs|
    ensures var x, b := s.threads[t].first, s.threads[t].bs[j];
            && b < |s.blocks| && x < |s.sets|
            && s.blocks[b].owner == Some(x) && b in s.sets[x].list && s.blocks[b].dirty
            && s.blocks[b].io == Idle && s.sets[x].dirtying == Some(t) && s.sets[x].dirty
            && x in Queue(s)
  {
    hide InTurn, WorkerOk, CountsOk, SetsOk, BlocksOk, ThreadsOk, HeldsOk;
    ThreadAt(s, t);
    var pc := s.threads[t];
    var x, b := pc.first, pc.bs[j];
    assert Asked(pc)[j] == b;
    Listed(s, b, x);
    SetAt(s, x);
    Member(x, s.sets[x], s.blocks, b);
    assert s.sets[x].stage == Pending;
    assert x in Queue(s) by { PendingIsQueued(s, x); }
  }

  lemma PendingIsQueued(s: State, x: Sid)
    requires InTurn(s) && x < |s.sets| && s.sets[x].stage == Pending
    ensures x in Queue(s)
  {
  }

  /** No two threads hold DIRTYING on the same set. */
  lemma OneHolder(s: State, t: Tid, u: Tid, x: Sid)
    requires Reachable(s) && t < |s.threads| && u < |s.threads|
    requires x in Holds(s.threads[t]) && x in Holds(s.threads[u])
    ensures t == u
  {
    hide Reachable, InTurn, WorkerOk, CountsOk, SetsOk, BlocksOk, ThreadsOk, HeldsOk;
    ReachableHolds(s);
    HolderOwns(s, t, x);
    HolderOwns(s, u, x);
  }

  lemma HolderOwns(s: State, t: Tid, x: Sid)
    requires ThreadsOk(s) && t < |s.threads| && x in Holds(s.threads[t])
    ensures x < |s.sets| && s.sets[x].dirtying == Some(t)
  {
    hide Shaped, Marking, Joined, Distinct;
    assert ThreadOk(t, s.threads[t], s.blocks, s.sets);
  }

  // ---- dirtying and writeback exclude each other ----

  /** The sets on which a thread has set DIRTYING and found WRITEBACK clear. */
  function PastTest(pc: Pc): seq<Sid> {
    match pc
    case Loop(_, _, large) => Seqs(large)
    case Lock(_, _, large, _) => Seqs(large)
    case Locked(_, _, large, _) => Seqs(large)
    case Tested(_, _, large, small) => Seqs(large) + [small]
    case Both(_, _, first, small) => [first, small]
    case Merged(_, _, first, small) => [first, small]
    case Mark(_, first, _) => [first]
    case Commit(_, first) => [first]
    case Modify(_, first) => [first]
    case _ => []
  }

  /** The worker is past its own test of a set, or the set's blocks are being written. */
  predicate BeingWritten(s: State, x: Sid)
    requires x < |s.sets|
  {
    Written(s.sets[x].stage)
  }

  /** A thread past its test and a writeback past its test never meet on one set, and a written
      set that has not been let go shows WRITEBACK. */
  lemma DirtyingExcludesWriteback(s: State, t: Tid, x: Sid)
    requires Reachable(s) && t < |s.threads| && x < |s.sets|
    ensures x in PastTest(s.threads[t]) ==> !BeingWritten(s, x)
    ensures BeingWritten(s, x) ==> s.sets[x].writeback
    ensures x in PastTest(s.threads[t]) ==> forall b :: b in s.sets[x].list ==> b < |s.blocks| && s.blocks[b].io == Idle
  {
    hide Reachable, InTurn, WorkerOk, CountsOk, SetsOk, BlocksOk, ThreadsOk, HeldsOk;
    hide Shaped, Marking, Joined, Distinct;
    ReachableHolds(s);
    ThreadAt(s, t);
    SetAt(s, x);
    if x in PastTest(s.threads[t]) {
      assert Calm(s.sets[x].stage) || s.sets[x].stage == Done by { PastIsCalm(s, t, x); }
      forall b | b in s.sets[x].list
        ensures b < |s.blocks| && s.blocks[b].io == Idle
      {
        Member(x, s.sets[x], s.blocks, b);
      }
    }
  }

  lemma PastIsCalm(s: State, t: Tid, x: Sid)
    requires t < |s.threads| && ThreadOk(t, s.threads[t], s.blocks, s.sets) && x in PastTest(s.threads[t])
    ensures x < |s.sets| && (Calm(s.sets[x].stage) || s.sets[x].stage == Done)
  {
  }

  // ---- no circular wait ----

  /** A thread that waits holds DIRTYING on no set. */
  lemma WaitersHoldNothing(s: State, t: Tid, x: Sid)
    requires Reachable(s) && t < |s.threads| && x < |s.sets|
    requires s.threads[t].Wait? || s.threads[t].Outside? || s.threads[t].Syncing? || s.threads[t].SeenSeq?
    ensures s.sets[x].dirtying != Some(t)
  {
    hide Reachable, InTurn, WorkerOk, CountsOk, SetsOk, BlocksOk, ThreadsOk;
    ReachableHolds(s);
    assert Held(x, s.sets[x], s.threads);
  }

  /** While the worker waits for a set, no set shows WRITEBACK but those being written and the
      empty ones. */
  lemma WorkerWaitsEmptyHanded(s: State, x: Sid)
    requires Reachable(s) && s.worker.Waiting? && x < |s.sets| && s.sets[x].writeback
    ensures s.sets[x].stage == Dead
         || s.sets[x].stage == Flying || s.sets[x].stage == Finishing || s.sets[x].stage == Releasing
  {
    hide Reachable, InTurn, CountsOk, SetsOk, BlocksOk, ThreadsOk, HeldsOk;
    ReachableHolds(s);
    assert BitsOk(s.sets[x]) by { SetAt(s, x); }
  }

  /** Whoever waits for a DIRTYING bit waits for a thread that can take its next step now. */
  lemma HolderCanStep(s: State, x: Sid)
    requires Reachable(s) && x < |s.sets| && s.sets[x].dirtying.Some?
    ensures var u := s.sets[x].dirtying.value;
            u < |s.threads| && Typed(s) && Next(s, Dirtier(u)).Some?
  {
    hide Reachable, InTurn, WorkerOk, CountsOk, SetsOk, BlocksOk, ThreadsOk, Typed;
    ReachableHolds(s);
    assert Held(x, s.sets[x], s.threads);
    var u := s.sets[x].dirtying.value;
    HolderSteps(s, u);
  }

  lemma HolderSteps(s: State, u: Tid)
    requires ThreadsOk(s) && Typed(s) && u < |s.threads| && Holds(s.threads[u]) != []
    ensures DirtierStep(s, u).Some?
  {
    hide ThreadsOk, Typed, Shaped, DirtyFirst;
    ThreadAt(s, u);
    var pc := s.threads[u];
    if pc.Both? {
      assert Holds(pc)[0] == pc.first && Holds(pc)[1] == pc.small;
      DistinctPair(Holds(pc));
    } else if pc.Modify? {
      assert Asked(pc)[0] == pc.bs[0];
      assert s.blocks[pc.bs[0]].owner == Some(pc.first);
    }
  }

  /** A failed allocation or sync leaves no DIRTYING bit behind: get_other_set only allocates when
      no set is being built, so the error exit never holds one. */
  lemma FailureHoldsNothing(s: State, t: Tid, r: State, x: Sid)
    requires Reachable(s) && Typed(s) && Next(s, Fails(t)) == Some(r) && x < |r.sets|
    ensures r.sets[x].dirtying != Some(t)
  {
    hide Reachable, InTurn, WorkerOk, CountsOk, SetsOk, BlocksOk, ThreadsOk, Typed;
    ReachableHolds(s);
    assert Held(x, s.sets[x], s.threads);
  }

  // ---- the writeback order ----

  /** writeback_list and then the reversed writeback_llist carry exactly the numbers after the last
      set the worker took, in order, up to dirty_seq; and no other set is waiting. */
  lemma PendingInOrder(s: State)
    requires Reachable(s)
    ensures var q := s.list + Reverse(s.llist);
            && s.dirtySeq == s.writebackSeq + (if Busy(s.worker) then 1 else 0) + |q|
            && (forall j :: 0 <= j < |q| ==>
                  && q[j] < |s.sets|
                  && s.sets[q[j]].dirtySeq == s.writebackSeq + (if Busy(s.worker) then 1 else 0) + 1 + j)
            && (forall x :: 0 <= x < |s.sets| && s.sets[x].dirtySeq > s.writebackSeq + (if Busy(s.worker) then 1 else 0)
                  ==> x in q)
  {
    hide Reachable, CountsOk, BlocksOk, ThreadsOk, HeldsOk, SetsOk, Reverse;
    ReachableHolds(s);
    forall x | 0 <= x < |s.sets| && s.sets[x].dirtySeq > Base(s)
      ensures x in Queue(s)
    {
      assert BitsOk(s.sets[x]) by { SetAt(s, x); }
    }
  }

  /** WRITEBACK is clear when the worker sets it, and a completing block has a set: neither BUG_ON
      can fire. */
  lemma BugsDoNotFire(s: State)
    requires Reachable(s)
    ensures s.worker == Picking && s.list != [] ==> s.list[0] < |s.sets| && !s.sets[s.list[0]].writeback
    ensures forall b :: 0 <= b < |s.blocks| && s.blocks[b].io == Counted ==> s.blocks[b].owner.Some?
    ensures forall b :: 0 <= b < |s.blocks| && s.blocks[b].io == Queued ==> s.blocks[b].owner.Some?
  {
    hide Reachable, InTurn, WorkerOk, CountsOk, SetsOk, ThreadsOk, HeldsOk, BlocksOk, Inv;
    ReachableHolds(s);
    InvParts(s);
    if s.worker == Picking && s.list != [] {
      ClaimIsFresh(s);
    }
    forall b | 0 <= b < |s.blocks| && (s.blocks[b].io == Counted || s.blocks[b].io == Queued)
      ensures s.blocks[b].owner.Some?
    {
      InFlight(s, b);
    }
  }

  // ---- the counters ----

  /** nr_dirty counts the dirty blocks, less exactly those of sets whose release has begun. */
  lemma NrDirtyIsExact(s: State)
    requires Reachable(s)
    ensures s.nrDirty == CountDirty(s.blocks) >= 0
    ensures forall b :: 0 <= b < |s.blocks| ==>
              (s.blocks[b].debited <==>
               s.blocks[b].owner.Some? && s.blocks[b].owner.value < |s.sets|
               && s.sets[s.blocks[b].owner.value].stage == Releasing)
  {
    hide Reachable, InTurn, WorkerOk, SetsOk, BlocksOk, ThreadsOk, HeldsOk, CountDirty;
    ReachableHolds(s);
    forall b | 0 <= b < |s.blocks|
      ensures s.blocks[b].debited <==>
              s.blocks[b].owner.Some? && s.blocks[b].owner.value < |s.sets|
              && s.sets[s.blocks[b].owner.value].stage == Releasing
    {
      BlockAt(s, b);
      if s.blocks[b].owner.Some? {
        var x := s.blocks[b].owner.value;
        SetAt(s, x);
        Member(x, s.sets[x], s.blocks, b);
      }
    }
  }

  function AllDirtyBlocks(blocks: seq<Block>): nat {
    if blocks == [] then 0
    else AllDirtyBlocks(blocks[..|blocks| - 1]) + if blocks[|blocks| - 1].dirty then 1 else 0
  }

  lemma {:induction false} CountNoDebt(blocks: seq<Block>)
    requires forall b :: 0 <= b < |blocks| ==> !blocks[b].debited
    ensures CountDirty(blocks) == AllDirtyBlocks(blocks)
  {
    if blocks != [] {
      CountNoDebt(blocks[..|blocks| - 1]);
    }
  }

  /** With no set half let go, nr_dirty is the number of blocks with BL_DIRTY. */
  lemma NrDirtyBetweenReleases(s: State)
    requires Reachable(s) && forall x :: 0 <= x < |s.sets| ==> s.sets[x].stage != Releasing
    ensures s.nrDirty == AllDirtyBlocks(s.blocks)
  {
    hide Reachable, CountDirty, AllDirtyBlocks;
    NrDirtyIsExact(s);
    CountNoDebt(s.blocks);
  }

  /** nr_writeback is the sum of all submitted_blocks, but for a set between its two additions and
      the blocks between their two decrements; it is also the number of blocks charged and not
      completed, so it never goes negative. */
  lemma NrWritebackIsExact(s: State)
    requires Reachable(s)
    ensures s.nrWriteback == SumSubmitted(s.sets) + Uncounted(s.worker, s.sets) - CountCounted(s.blocks)
    ensures s.nrWriteback == CountWriteback(s.blocks) >= 0
  {
    hide Reachable, InTurn, WorkerOk, SetsOk, BlocksOk, ThreadsOk, HeldsOk;
    hide CountDirty, CountWriteback, CountCounted, SumSubmitted;
    ReachableHolds(s);
  }

  /** The blocks of a set that are not yet dirty are a suffix of its list, except while the walk
      that marks them, which starts at the tail, is under way. */
  lemma CleanBlocksAreLast(s: State, x: Sid)
    requires Reachable(s) && x < |s.sets|
    requires forall t :: 0 <= t < |s.threads| && s.threads[t].Mark? ==> s.threads[t].first != x
    ensures InRange(s.sets[x].list, |s.blocks|) && DirtyFirst(s.sets[x].list, s.blocks)
  {
    hide Reachable, InTurn, WorkerOk, SetsOk, BlocksOk, ThreadsOk, CountsOk, SetOk, DirtyFirst, ThreadOk;
    ReachableHolds(s);
    SetAt(s, x);
    if s.sets[x].dirtying.Some? && Calm(s.sets[x].stage) {
      assert Held(x, s.sets[x], s.threads);
      var u := s.sets[x].dirtying.value;
      ThreadAt(s, u);
      MarkHolds(s.threads[u], x);
      HolderShapes(s, u, x);
    } else {
      UnheldShape(x, s.sets[x], s.blocks);
    }
  }

  lemma MarkHolds(pc: Pc, x: Sid)
    requires x in Holds(pc)
    ensures pc.Mark? ==> pc.first == x
  {
  }

  lemma UnheldShape(x: Sid, st: BlockSet, blocks: seq<Block>)
    requires SetOk(x, st, blocks) && (st.dirtying.None? || !Calm(st.stage))
    ensures InRange(st.list, |blocks|) && DirtyFirst(st.list, blocks)
  {
  }

  lemma HolderShapes(s: State, u: Tid, x: Sid)
    requires u < |s.threads| && ThreadOk(u, s.threads[u], s.blocks, s.sets) && x in Holds(s.threads[u])
    requires !s.threads[u].Mark? && x < |s.sets| && SetOk(x, s.sets[x], s.blocks) && Calm(s.sets[x].stage)
    ensures InRange(s.sets[x].list, |s.blocks|) && DirtyFirst(s.sets[x].list, s.blocks)
  {
  }
}
