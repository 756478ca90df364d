/** Who a waiting thread waits for: every DIRTYING or WRITEBACK bit belongs to a context that can
    take a step, except the WRITEBACK bit of a set the worker took while it was empty
    (shared/block.c:599-656, 885-902). */
module DirtyServed {
  import opened Options
  import opened DirtySets
  import opened DirtyInvariant
  import opened DirtyFrames
  import opened DirtySteps
  import opened DirtyWork
  import opened DirtyRuns
  import opened DirtySync

  // ---- every block of a set in flight is on its way ----

  /** A block charged but not submitted is one the worker is about to submit. */
  predicate OwedOk(s: State) {
    forall b :: 0 <= b < |s.blocks| && s.blocks[b].io == Owed ==>
      || (s.blocks[b].owner.Some? && s.worker == Counting(s.blocks[b].owner.value))
      || b in Todo(s.worker)
  }

  lemma WorkOwes(s: State, r: State)
    requires Inv(s) && Typed(s) && OwedOk(s) && WorkerStep(s) == Some(r)
    ensures OwedOk(r)
  {
    hide BlocksOk, ThreadsOk, HeldsOk, InTurn, CountsOk, SyncsOk, SetsOk;
    match s.worker {
      case Charging(x) =>
        SetAt(s, x);
        ChargeOwes(s, x, r);
      case Counting(x) => CountOwes(s, x, r);
      case Submitting(x, todo) =>
        if todo != [] {
          assert forall b :: b in todo && b != todo[0] ==> b in todo[1..];
        }
      case _ =>
    }
  }

  lemma ChargeOwes(s: State, x: Sid, r: State)
    requires Typed(s) && OwedOk(s) && s.worker == Charging(x) && WorkerStep(s) == Some(r)
    requires SetOk(x, s.sets[x], s.blocks)
    ensures OwedOk(r)
  {
    hide SetOk;
    forall b | b in s.sets[x].list
      ensures b < |s.blocks| && s.blocks[b].owner == Some(x)
    {
      Member(x, s.sets[x], s.blocks, b);
    }
  }

  lemma CountOwes(s: State, x: Sid, r: State)
    requires Inv(s) && Typed(s) && OwedOk(s) && s.worker == Counting(x) && WorkerStep(s) == Some(r)
    ensures OwedOk(r)
  {
    hide BlocksOk, ThreadsOk, HeldsOk, InTurn, WorkerOk, CountsOk, SyncsOk, SetsOk;
    forall b | 0 <= b < |s.blocks| && s.blocks[b].io == Owed
      ensures b in s.sets[x].list
    {
      Listed(s, b, x);
    }
  }

  /** A dirtying thread's step changes no block that is being written. */
  lemma DirtierIo(s: State, t: Tid, r: State, b: Bid)
    requires Inv(s) && Typed(s) && t < |s.threads| && DirtierStep(s, t) == Some(r) && b < |s.blocks|
    ensures |r.blocks| == |s.blocks| && r.worker == s.worker
    ensures r.blocks[b].io == Owed ==> r.blocks[b] == s.blocks[b]
  {
    hide Inv, Fetch, TryLock, TestWriteback, CheckOwner, Merge, DropSmall, MarkOne, CommitSet, End, ReleaseOne, Resume;
    var pc := s.threads[t];
    match pc {
      case Loop(_, _, _) => FetchIo(s, t, pc, r, b);
      case Lock(_, _, _, _) => OtherIo(s, t, pc, r);
      case Locked(_, _, _, _) => OtherIo(s, t, pc, r);
      case Tested(_, _, _, _) => OtherIo(s, t, pc, r);
      case Both(_, _, _, _) => MergeIo(s, t, pc, r, b);
      case Merged(_, _, _, _) => OtherIo(s, t, pc, r);
      case Mark(_, _, _) => MarkIo(s, t, pc, r, b);
      case Commit(_, _) => OtherIo(s, t, pc, r);
      case Modify(_, _) => OtherIo(s, t, pc, r);
      case Release(_, _, _) => ReleaseIo(s, t, pc, r, b);
      case Wait(_, _) => OtherIo(s, t, pc, r);
      case _ =>
    }
  }

  lemma OtherIo(s: State, t: Tid, pc: Pc, r: State)
    requires Typed(s) && t < |s.threads| && pc == s.threads[t] && DirtierStep(s, t) == Some(r)
    requires !pc.Loop? && !pc.Both? && !pc.Mark? && !pc.Release?
    ensures r.blocks == s.blocks && r.worker == s.worker
  {
  }

  lemma FetchIo(s: State, t: Tid, pc: Pc, r: State, b: Bid)
    requires Inv(s) && Typed(s) && t < |s.threads| && pc == s.threads[t] && pc.Loop? && Fetch(s, t, pc) == Some(r)
    requires b < |s.blocks|
    ensures |r.blocks| == |s.blocks| && r.worker == s.worker
    ensures r.blocks[b].io == Owed ==> r.blocks[b] == s.blocks[b]
  {
    hide SetsOk, ThreadsOk, HeldsOk, InTurn, WorkerOk, CountsOk, SyncsOk, BlocksOk;
    BlockAt(s, b);
    if pc.large.Some? {
      assert Holds(pc)[0] == pc.large.value;
    }
  }

  lemma MergeIo(s: State, t: Tid, pc: Pc, r: State, b: Bid)
    requires Inv(s) && Typed(s) && t < |s.threads| && pc == s.threads[t] && pc.Both? && Merge(s, t, pc) == Some(r)
    requires b < |s.blocks|
    ensures |r.blocks| == |s.blocks| && r.worker == s.worker
    ensures r.blocks[b].io == Owed ==> r.blocks[b] == s.blocks[b]
  {
    hide Inv, Splice, SetOk, Shaped, ThreadOk, Merge;
    var x, y := MergeCases(s, t, pc, r);
    MergeFacts(s, t, pc, x, y);
  }

  lemma MarkIo(s: State, t: Tid, pc: Pc, r: State, b: Bid)
    requires Inv(s) && Typed(s) && t < |s.threads| && pc == s.threads[t] && pc.Mark? && MarkOne(s, t, pc) == Some(r)
    requires b < |s.blocks|
    ensures |r.blocks| == |s.blocks| && r.worker == s.worker
    ensures r.blocks[b].io == Owed ==> r.blocks[b] == s.blocks[b]
  {
    hide SetsOk, ThreadsOk, HeldsOk, InTurn, WorkerOk, CountsOk, SyncsOk, BlocksOk, SetOk;
    assert Holds(pc)[0] == pc.first;
    ThreadAt(s, t);
    SetAt(s, pc.first);
    if b in s.sets[pc.first].list {
      Member(pc.first, s.sets[pc.first], s.blocks, b);
    }
  }

  lemma ReleaseIo(s: State, t: Tid, pc: Pc, r: State, b: Bid)
    requires Inv(s) && Typed(s) && t < |s.threads| && pc == s.threads[t] && pc.Release? && ReleaseOne(s, t, pc) == Some(r)
    requires b < |s.blocks|
    ensures |r.blocks| == |s.blocks| && r.worker == s.worker
    ensures r.blocks[b].io == Owed ==> r.blocks[b] == s.blocks[b]
  {
    hide SetsOk, ThreadsOk, HeldsOk, InTurn, WorkerOk, CountsOk, SyncsOk, BlocksOk, SetOk;
    if pc.held != [] {
      var x := pc.held[0];
      assert Holds(pc)[0] == x;
      SetAt(s, x);
      if b in s.sets[x].list {
        Member(x, s.sets[x], s.blocks, b);
      }
    }
  }

  lemma StepOwes(s: State, a: Action, r: State)
    requires Inv(s) && Typed(s) && Next(s, a) == Some(r) && OwedOk(s)
    ensures OwedOk(r)
  {
    hide Inv, DirtierStep, WorkerStep;
    match a {
      case Dirtier(t) => DirtierOwes(s, t, r);
      case Work => WorkOwes(s, r);
      case Retires(x) => RetireOwes(s, x, r);
      case _ =>
    }
  }

  lemma DirtierOwes(s: State, t: Tid, r: State)
    requires Inv(s) && Typed(s) && t < |s.threads| && DirtierStep(s, t) == Some(r) && OwedOk(s)
    ensures OwedOk(r)
  {
    hide Inv, Typed, DirtierStep;
    DirtierLocal(s, t, r);
    forall b | 0 <= b < |r.blocks| && r.blocks[b].io == Owed
      ensures (r.blocks[b].owner.Some? && r.worker == Counting(r.blocks[b].owner.value)) || b in Todo(r.worker)
    {
      DirtierIo(s, t, r, b);
    }
  }

  lemma RetireOwes(s: State, x: Sid, r: State)
    requires Typed(s) && x < |s.sets| && Retire(s, x) == Some(r) && OwedOk(s)
    ensures OwedOk(r)
  {
  }

  lemma {:induction false} RunOwes(s: State, acts: seq<Action>, r: State)
    requires Inv(s) && Exec(s, acts) == Some(r) && OwedOk(s)
    ensures OwedOk(r)
    decreases |acts|
  {
    hide Inv, Typed, Next, OwedOk;
    InvTyped(s);
    if acts != [] {
      var m := Next(s, acts[0]).value;
      StepOwes(s, acts[0], m);
      StepKeeps(s, acts[0], m);
      RunOwes(m, acts[1..], r);
    }
  }

  lemma ReachableOwes(s: State)
    requires Reachable(s)
    ensures OwedOk(s)
  {
    hide Inv, Typed, Exec;
    var s0: State, acts: seq<Action> :| Initial(s0) && Exec(s0, acts) == Some(s);
    InitialHolds(s0);
    RunOwes(s0, acts, s);
  }

  // ---- WRITEBACK is always someone's to clear, but for an emptied set ----

  /** Some context that will help clear WRITEBACK on the set can take a step: the worker, which has
      the set in hand; an IO to complete; a completion to count; or the last completion. */
  ghost predicate Served(s: State, x: Sid)
    requires Typed(s)
  {
    || (!s.worker.Resting? && !s.worker.Picking? && s.worker.claim == x && Next(s, Work).Some?)
    || (exists b: Bid :: BlockServes(s, x, b))
    || Next(s, Retires(x)).Some?
  }

  predicate BlockServes(s: State, x: Sid, b: Bid)
    requires Typed(s)
  {
    && b < |s.blocks| && s.blocks[b].owner == Some(x)
    && ((b in Todo(s.worker) && Next(s, Work).Some?)
        || Next(s, Completes(b)).Some? || Next(s, Drops(b)).Some?)
  }

  lemma {:induction false} SomeUnfinished(list: seq<Bid>, blocks: seq<Block>) returns (b: Bid)
    requires InRange(list, |blocks|) && Unfinished(list, blocks) > 0
    ensures b in list && b < |blocks| && blocks[b].io != Finished
  {
    var n := |list| - 1;
    if blocks[list[n]].io != Finished {
      b := list[n];
    } else {
      b := SomeUnfinished(list[..n], blocks);
    }
  }

  lemma WritebackIsServed(s: State, x: Sid)
    requires Reachable(s) && x < |s.sets| && s.sets[x].writeback && s.sets[x].stage != Dead
    ensures Typed(s) && Served(s, x)
  {
    hide Reachable, Inv, Served, WorkerStep, IoDone, Drop, Retire;
    ReachableHolds(s);
    InvParts(s);
    SetAt(s, x);
    assert BitsOk(s.sets[x]) by { BitsOf(x, s.sets[x], s.blocks); }
    var stage := s.sets[x].stage;
    if stage == Flying {
      FlyingIsServed(s, x);
    } else if stage == Finishing || stage == Releasing {
      RetireIsServed(s, x);
    } else {
      WorkerServes(s, x);
    }
  }

  lemma RetireIsServed(s: State, x: Sid)
    requires Typed(s) && x < |s.sets| && (s.sets[x].stage == Finishing || s.sets[x].stage == Releasing)
    ensures Served(s, x)
  {
  }

  lemma WorkerServes(s: State, x: Sid)
    requires Typed(s) && WorkerOk(s) && x < |s.sets| && s.sets[x].writeback
    requires s.sets[x].stage == Pending || s.sets[x].stage == Taken || s.sets[x].stage == Charged
    ensures Served(s, x)
  {
  }

  lemma FlyingIsServed(s: State, x: Sid)
    requires Reachable(s) && Typed(s) && SetsOk(s) && BlocksOk(s) && x < |s.sets| && s.sets[x].stage == Flying
    requires WorkerOk(s)
    ensures Served(s, x)
  {
    hide Reachable, SetsOk, BlocksOk, Retire;
    SetAt(s, x);
    var b := SomeUnfinished(s.sets[x].list, s.blocks);
    Member(x, s.sets[x], s.blocks, b);
    ReachableOwes(s);
    if s.blocks[b].io == Owed {
      assert b in Todo(s.worker);
    }
    assert BlockServes(s, x, b);
  }

  // ---- a set emptied by a merge keeps WRITEBACK ----

  lemma {:induction false} DeadStaysDead(s: State, acts: seq<Action>, r: State, x: Sid)
    requires Inv(s) && Exec(s, acts) == Some(r) && x < |s.sets| && s.sets[x].stage == Dead && s.sets[x].writeback
    ensures x < |r.sets| && r.sets[x].stage == Dead && r.sets[x].writeback
    decreases |acts|
  {
    hide Inv, Typed, Next;
    if acts != [] {
      InvTyped(s);
      var m := Next(s, acts[0]).value;
      SetStep(s, acts[0], m);
      assert SetFollows(s.sets[x], m.sets[x]);
      StepKeeps(s, acts[0], m);
      DeadStaysDead(m, acts[1..], r, x);
    }
  }

  /** A merge leaves the emptied set queued, the worker takes it, and nothing ever clears WRITEBACK
      again: whoever read bl->set before the merge and then found the bit set waits for good. */
  lemma EmptiedSetIsNeverServed(s: State, acts: seq<Action>, r: State, x: Sid)
    requires Reachable(s) && Exec(s, acts) == Some(r) && x < |s.sets|
    requires s.worker == Charging(x) && s.sets[x].size == 0 && acts != [] && acts[0] == Work
    ensures x < |r.sets| && r.sets[x].writeback && r.sets[x].stage == Dead
  {
    hide Reachable, Inv;
    ReachableHolds(s);
    var m := Next(s, Work).value;
    assert m == WithSet(s, x, s.sets[x].(stage := Dead)).(worker := Advancing(x));
    StepKeeps(s, Work, m);
    assert m.sets[x].writeback by { TakenShows(s, x); }
    DeadStaysDead(m, acts[1..], r, x);
  }

  lemma TakenShows(s: State, x: Sid)
    requires Inv(s) && s.worker == Charging(x) && x < |s.sets|
    ensures s.sets[x].writeback
  {
    hide Inv;
    InvParts(s);
    ChargingAt(s, x);
    SetBits(s);
  }

  /** Only its own step moves a thread that waits for WRITEBACK, and on an emptied set there is none. */
  lemma WaiterStays(s: State, a: Action, r: State, t: Tid, x: Sid)
    requires Inv(s) && Typed(s) && Next(s, a) == Some(r) && t < |s.threads| && x < |s.sets|
    requires s.threads[t].Wait? && s.threads[t].next == ForWriteback(x) && s.sets[x].writeback
    ensures t < |r.threads| && r.threads[t] == s.threads[t]
  {
    hide Inv, DirtierStep, WorkerStep;
    match a
    case Dirtier(u) =>
      if u != t {
        DirtierLocal(s, u, r);
      } else {
        StuckNow(s, t, x);
      }
    case Work => WorkMoves(s, r);
    case _ =>
  }

  lemma StuckNow(s: State, t: Tid, x: Sid)
    requires Typed(s) && t < |s.threads| && x < |s.sets|
    requires s.threads[t].Wait? && s.threads[t].next == ForWriteback(x) && s.sets[x].writeback
    ensures Next(s, Dirtier(t)) == None
  {
  }

  lemma {:induction false} WaiterRun(s: State, acts: seq<Action>, r: State, t: Tid, x: Sid)
    requires Inv(s) && Exec(s, acts) == Some(r) && t < |s.threads| && x < |s.sets|
    requires s.threads[t].Wait? && s.threads[t].next == ForWriteback(x)
    requires s.sets[x].stage == Dead && s.sets[x].writeback
    ensures t < |r.threads| && x < |r.sets| && r.threads[t] == s.threads[t] && r.sets[x].writeback
    decreases |acts|
  {
    hide Inv, Typed, Next;
    if acts != [] {
      InvTyped(s);
      var m := Next(s, acts[0]).value;
      WaiterStays(s, acts[0], m, t, x);
      SetStep(s, acts[0], m);
      assert SetFollows(s.sets[x], m.sets[x]);
      StepKeeps(s, acts[0], m);
      WaiterRun(m, acts[1..], r, t, x);
    }
  }

  /** A thread that waits for WRITEBACK on a set the worker took empty waits in every later state, and
      never has a step again. */
  lemma WaiterNeverResumes(s: State, acts: seq<Action>, r: State, t: Tid, x: Sid)
    requires Reachable(s) && Exec(s, acts) == Some(r) && t < |s.threads| && x < |s.sets|
    requires s.threads[t].Wait? && s.threads[t].next == ForWriteback(x) && s.sets[x].stage == Dead
    ensures t < |r.threads| && r.threads[t] == s.threads[t]
    ensures Typed(r) && Next(r, Dirtier(t)) == None
  {
    hide Reachable, Inv, Typed, Next;
    ReachableHolds(s);
    SetBits(s);
    WaiterRun(s, acts, r, t, x);
    RunKeeps(s, acts, r);
    StuckNow(r, t, x);
  }
}
