/** Every call can succeed: from any state in which no thread is in the middle of a step sequence, a sync
    returns and a call of dirty_begin, new or waiting, gets its blocks, unless it waits for a set that
    was taken while it was empty (shared/block.c:666-700, 852-973). */
module DirtyReturns {
  import opened Options
  import opened DirtySets
  import opened DirtyInvariant
  import opened DirtyFrames
  import opened DirtySteps
  import opened DirtyWork
  import opened DirtyRuns
  import opened DirtySync
  import opened DirtyServed
  import opened DirtyCalls
  import opened DirtyProgress
  import opened DirtyDrain

  // ---- the numbers that threads wait for ----

  function AfterGoal(a: After): nat {
    if a.ForSync? || a.ForIdle? then a.upTo else 0
  }

  function GoalOf(pc: Pc): nat {
    match pc
    case Release(_, _, next) => AfterGoal(next)
    case Wait(_, next) => AfterGoal(next)
    case Syncing(n) => n
    case SeenSeq(n) => n
    case _ => 0
  }

  predicate GoalsOk(s: State) {
    forall t :: 0 <= t < |s.threads| ==> GoalOf(s.threads[t]) <= s.dirtySeq
  }

  /** No set carries a number above dirty_seq. */
  lemma NumbersBelow(s: State, x: Sid)
    requires Inv(s) && x < |s.sets|
    ensures s.sets[x].dirtySeq <= s.dirtySeq
  {
    hide SetsOk, BlocksOk, ThreadsOk, HeldsOk, CountsOk, SyncsOk;
    SetBits(s);
    if s.sets[x].stage == Pending {
      var j :| 0 <= j < |Queue(s)| && Queue(s)[j] == x;
    }
  }

  lemma SameGoal(s: State, t: Tid, r: State)
    requires Typed(s) && t < |s.threads| && !s.threads[t].Both? && DirtierStep(s, t) == Some(r)
    ensures t < |r.threads| && GoalOf(r.threads[t]) <= GoalOf(s.threads[t])
  {
    hide Merge, Fetch, MarkOne, CommitSet, End, DropSmall, GoalOf;
    var pc := s.threads[t];
    if pc.Loop? || pc.Mark? || pc.Commit? || pc.Modify? || pc.Merged? {
      NoGoal(s, t, pc, r);
    } else {
      StillGoal(s, t, pc, r);
    }
  }

  lemma NoGoal(s: State, t: Tid, pc: Pc, r: State)
    requires Typed(s) && t < |s.threads| && pc == s.threads[t] && DirtierStep(s, t) == Some(r)
    requires pc.Loop? || pc.Mark? || pc.Commit? || pc.Modify? || pc.Merged?
    ensures t < |r.threads| && GoalOf(r.threads[t]) == 0
  {
    hide Merge, TryLock, TestWriteback, CheckOwner, ReleaseOne, Resume;
  }

  lemma StillGoal(s: State, t: Tid, pc: Pc, r: State)
    requires Typed(s) && t < |s.threads| && pc == s.threads[t] && DirtierStep(s, t) == Some(r)
    requires pc.Lock? || pc.Locked? || pc.Tested? || pc.Release? || pc.Wait?
    ensures t < |r.threads| && GoalOf(r.threads[t]) <= GoalOf(pc)
  {
    hide Merge, Fetch, MarkOne, CommitSet, End, DropSmall;
  }

  lemma MergeGoal(s: State, t: Tid, r: State)
    requires Inv(s) && Typed(s) && t < |s.threads| && s.threads[t].Both? && DirtierStep(s, t) == Some(r)
    ensures t < |r.threads| && GoalOf(r.threads[t]) <= s.dirtySeq
  {
    hide Inv, MergedState, Splice;
    var pc := s.threads[t];
    assert Holds(pc)[0] == pc.first && Holds(pc)[1] == pc.small;
    InvTypedThread(s, t);
    NumbersBelow(s, pc.first);
    NumbersBelow(s, pc.small);
    DirtierLocal(s, t, r);
    MergeMoves(s, t, pc, r);
  }

  lemma MergeMoves(s: State, t: Tid, pc: Pc, r: State)
    requires Typed(s) && t < |s.threads| && pc == s.threads[t] && pc.Both? && Merge(s, t, pc) == Some(r)
    ensures pc.first < |s.sets| && pc.small < |s.sets| && t < |r.threads|
    ensures || r.threads[t].Merged?
            || (r.threads[t].Release? && r.threads[t].next in
                  {ForSync(s.sets[pc.first].dirtySeq), ForSync(s.sets[pc.small].dirtySeq)})
  {
    hide Splice, Repointed, Swaps;
    assert Holds(pc)[0] == pc.first && Holds(pc)[1] == pc.small;
  }

  lemma StepGoals(s: State, a: Action, r: State)
    requires Inv(s) && Typed(s) && Next(s, a) == Some(r) && GoalsOk(s)
    ensures GoalsOk(r)
  {
    hide Inv, DirtierStep, WorkerStep, SetFollows;
    SetStep(s, a, r);
    match a
    case Dirtier(t) =>
      DirtierLocal(s, t, r);
      if s.threads[t].Both? {
        MergeGoal(s, t, r);
      } else {
        SameGoal(s, t, r);
      }
    case Work => WorkMoves(s, r);
    case _ =>
  }

  // ---- sets that nobody has taken up ----

  /** Not numbered yet, not empty, and not locked. */
  predicate Loose(st: BlockSet) {
    st.stage == Open && st.list != [] && st.dirtying.None?
  }

  predicate About(pc: Pc, x: Sid) {
    pc.Lock? && pc.small == x
  }

  /** Such a set was just made: a thread is about to lock it. */
  ghost predicate OpenOk(s: State) {
    forall x :: 0 <= x < |s.sets| && Loose(s.sets[x]) ==> exists t :: 0 <= t < |s.threads| && About(s.threads[t], x)
  }

  /** A step of thread t leaves a loose set only where one was that t was not about to lock, or makes
      one that t is about to lock. */
  predicate LooseFrom(s: State, t: Tid, r: State, x: Sid) {
    x < |r.sets| && t < |s.threads| && t < |r.threads| && Loose(r.sets[x]) ==>
      (x < |s.sets| && Loose(s.sets[x]) && !About(s.threads[t], x)) || About(r.threads[t], x)
  }

  lemma DirtierLoose(s: State, t: Tid, r: State, x: Sid)
    requires Inv(s) && Typed(s) && t < |s.threads| && DirtierStep(s, t) == Some(r)
    ensures LooseFrom(s, t, r, x)
  {
    hide Inv, Typed, LooseFrom, Fetch, TryLock, TestWriteback, CheckOwner, Merge, DropSmall, MarkOne, CommitSet, End;
    hide ReleaseOne, Resume;
    var pc := s.threads[t];
    match pc
    case Loop(_, _, _) => FetchLoose(s, t, pc, r, x);
    case Lock(_, _, _, _) => LockLoose(s, t, pc, r, x);
    case Locked(_, _, _, _) => LockLoose(s, t, pc, r, x);
    case Tested(_, _, _, _) => LockLoose(s, t, pc, r, x);
    case Both(_, _, _, _) => MergeLoose(s, t, pc, r, x);
    case Merged(_, _, _, _) => UnlockLoose(s, t, pc, r, x);
    case Mark(_, _, _) => MarkLoose(s, t, pc, r, x);
    case Commit(_, _) => MarkLoose(s, t, pc, r, x);
    case Modify(_, _) => UnlockLoose(s, t, pc, r, x);
    case Release(_, _, _) => ReleaseLoose(s, t, pc, r, x);
    case Wait(_, _) => LockLoose(s, t, pc, r, x);
  }

  lemma FetchLoose(s: State, t: Tid, pc: Pc, r: State, x: Sid)
    requires Inv(s) && Typed(s) && t < |s.threads| && pc == s.threads[t] && pc.Loop? && Fetch(s, t, pc) == Some(r)
    ensures LooseFrom(s, t, r, x)
  {
    hide SetsOk, BlocksOk, ThreadsOk, HeldsOk, InTurn, WorkerOk, CountsOk, SyncsOk;
    ThreadAt(s, t);
    if pc.large.Some? {
      assert Holds(pc)[0] == pc.large.value;
    }
  }

  lemma LockLoose(s: State, t: Tid, pc: Pc, r: State, x: Sid)
    requires Typed(s) && t < |s.threads| && pc == s.threads[t]
    requires || (pc.Lock? && TryLock(s, t, pc) == Some(r)) || (pc.Locked? && TestWriteback(s, t, pc) == Some(r))
             || (pc.Tested? && CheckOwner(s, t, pc) == Some(r)) || (pc.Wait? && Resume(s, t, pc) == Some(r))
    ensures LooseFrom(s, t, r, x)
  {
    if pc.Lock? {
      assert Eyes(pc)[0] == pc.small;
    }
  }

  lemma MergeLoose(s: State, t: Tid, pc: Pc, r: State, x: Sid)
    requires Inv(s) && Typed(s) && t < |s.threads| && pc == s.threads[t] && pc.Both? && Merge(s, t, pc) == Some(r)
    ensures LooseFrom(s, t, r, x)
  {
    hide Inv, Splice, Repointed, Swaps;
    assert Holds(pc)[0] == pc.first && Holds(pc)[1] == pc.small;
    InvParts(s);
    hide SetsOk, BlocksOk, ThreadsOk, HeldsOk, InTurn, WorkerOk, CountsOk, Typed, Shaped;
    ThreadAt(s, t);
  }

  lemma MarkLoose(s: State, t: Tid, pc: Pc, r: State, x: Sid)
    requires Typed(s) && t < |s.threads| && pc == s.threads[t]
    requires (pc.Mark? && MarkOne(s, t, pc) == Some(r)) || (pc.Commit? && CommitSet(s, t, pc) == Some(r))
    ensures LooseFrom(s, t, r, x)
  {
    assert Holds(pc)[0] == pc.first;
  }

  lemma UnlockLoose(s: State, t: Tid, pc: Pc, r: State, x: Sid)
    requires Inv(s) && Typed(s) && t < |s.threads| && pc == s.threads[t]
    requires (pc.Merged? && DropSmall(s, t, pc) == Some(r)) || (pc.Modify? && End(s, t, pc) == Some(r))
    ensures LooseFrom(s, t, r, x)
  {
    hide SetsOk, BlocksOk, ThreadsOk, HeldsOk, InTurn, WorkerOk, CountsOk, SyncsOk;
    ThreadAt(s, t);
    if pc.Modify? {
      assert Asked(pc)[0] == pc.bs[0];
      assert s.blocks[pc.bs[0]].owner == Some(pc.first);
    } else {
      assert Holds(pc)[1] == pc.small;
    }
  }

  lemma ReleaseLoose(s: State, t: Tid, pc: Pc, r: State, x: Sid)
    requires Inv(s) && Typed(s) && t < |s.threads| && pc == s.threads[t] && pc.Release? && ReleaseOne(s, t, pc) == Some(r)
    ensures LooseFrom(s, t, r, x)
  {
    hide SetsOk, BlocksOk, ThreadsOk, HeldsOk, InTurn, WorkerOk, CountsOk, SyncsOk;
    ThreadAt(s, t);
    if pc.held != [] {
      assert Holds(pc)[0] == pc.held[0];
      assert Own(pc.held[0], t, s.sets) && Shaped(s.sets[pc.held[0]], s.blocks);
    }
  }

  /** The other contexts make no set loose. */
  lemma OthersLoose(s: State, a: Action, r: State, x: Sid)
    requires Inv(s) && Typed(s) && Next(s, a) == Some(r) && !a.Dirtier? && x < |r.sets| && Loose(r.sets[x])
    ensures x < |s.sets| && Loose(s.sets[x])
    ensures |r.threads| == |s.threads|
    ensures forall t :: 0 <= t < |s.threads| ==> s.threads[t] == r.threads[t] || !s.threads[t].Lock?
  {
    hide Inv, WorkerStep;
    if a.Work? {
      WorkLoose(s, r, x);
    }
  }

  lemma WorkLoose(s: State, r: State, x: Sid)
    requires Inv(s) && Typed(s) && WorkerStep(s) == Some(r) && x < |r.sets| && Loose(r.sets[x])
    ensures x < |s.sets| && Loose(s.sets[x]) && r.threads == s.threads
  {
    hide SetsOk, BlocksOk, ThreadsOk, HeldsOk, InTurn, WorkerOk, CountsOk, SyncsOk, Reverse, Charge;
  }

  lemma StepLoose(s: State, a: Action, r: State)
    requires Inv(s) && Typed(s) && Next(s, a) == Some(r) && OpenOk(s)
    ensures OpenOk(r)
  {
    hide Inv, Typed, Loose, About;
    forall x | 0 <= x < |r.sets| && Loose(r.sets[x])
      ensures exists t :: 0 <= t < |r.threads| && About(r.threads[t], x)
    {
      if a.Dirtier? {
        LooseByDirtier(s, a.t, r, x);
      } else {
        hide Next;
        OthersLoose(s, a, r, x);
        var t :| 0 <= t < |s.threads| && About(s.threads[t], x);
        assert About(r.threads[t], x) by { StillAbout(s.threads[t], r.threads[t], x); }
      }
    }
  }

  lemma StillAbout(pc: Pc, after: Pc, x: Sid)
    requires About(pc, x) && (pc == after || !pc.Lock?)
    ensures About(after, x)
  {
  }

  lemma LooseByDirtier(s: State, t: Tid, r: State, x: Sid)
    requires Inv(s) && Typed(s) && Next(s, Dirtier(t)) == Some(r) && OpenOk(s) && x < |r.sets| && Loose(r.sets[x])
    ensures exists u :: 0 <= u < |r.threads| && About(r.threads[u], x)
  {
    hide Inv, DirtierStep, About, Loose;
    DirtierLocal(s, t, r);
    DirtierLoose(s, t, r, x);
    if !About(r.threads[t], x) {
      var u :| 0 <= u < |s.threads| && About(s.threads[u], x);
      assert u != t && r.threads[u] == s.threads[u];
    }
  }

  lemma {:induction false} RunCalls(s: State, acts: seq<Action>, r: State)
    requires Inv(s) && Exec(s, acts) == Some(r) && GoalsOk(s) && OpenOk(s)
    ensures GoalsOk(r) && OpenOk(r)
    decreases |acts|
  {
    hide Inv, Typed, Next, GoalsOk, OpenOk;
    InvTyped(s);
    if acts != [] {
      var m := Next(s, acts[0]).value;
      StepGoals(s, acts[0], m);
      StepLoose(s, acts[0], m);
      StepKeeps(s, acts[0], m);
      RunCalls(m, acts[1..], r);
    }
  }

  lemma ReachableCalls(s: State)
    requires Reachable(s)
    ensures GoalsOk(s) && OpenOk(s)
  {
    hide Inv, Typed, Exec;
    var s0: State, acts: seq<Action> :| Initial(s0) && Exec(s0, acts) == Some(s);
    InitialHolds(s0);
    RunCalls(s0, acts, s);
  }

  // ---- one call on its own ----

  /** Set n, if it is there, is the only one with blocks, and it has some of bs only. */
  predicate OnlySet(s: State, bs: seq<Bid>, n: Sid) {
    forall b :: 0 <= b < |s.blocks| && s.blocks[b].owner.Some? ==> s.blocks[b].owner.value == n && b in bs
  }

  predicate Unowned(s: State) {
    forall b :: 0 <= b < |s.blocks| ==> s.blocks[b].owner.None?
  }

  /** A call that started when no block was in a set: all it has met is the one set it made. */
  predicate Lone(s: State, t: Tid, bs: seq<Bid>, n: Sid) {
    && t < |s.threads| && bs != [] && InRange(bs, |s.blocks|) && OnlySet(s, bs, n)
    && match s.threads[t]
       case Loop(a, i, large) =>
         a == bs && if large.None? then i == 0 && |s.sets| == n && Unowned(s) else large.value == n && |s.sets| == n + 1
       case Lock(a, i, large, x) =>
         && a == bs && i == 0 && large.None? && x == n && |s.sets| == n + 1
         && s.blocks[bs[0]].owner == Some(n) && s.sets[n].dirtying.None? && !s.sets[n].writeback
       case Locked(a, i, large, x) =>
         && a == bs && i == 0 && large.None? && x == n && |s.sets| == n + 1
         && s.blocks[bs[0]].owner == Some(n) && !s.sets[n].writeback
       case Tested(a, i, large, x) =>
         a == bs && i == 0 && large.None? && x == n && |s.sets| == n + 1 && s.blocks[bs[0]].owner == Some(n)
       case Mark(a, x, _) => a == bs && x == n && |s.sets| == n + 1
       case Commit(a, x) => a == bs && x == n && |s.sets| == n + 1
       case Modify(a, x) => a == bs && x == n && |s.sets| == n + 1
       case _ => false
  }

  predicate OthersSame(s: State, r: State, t: Tid, n: Sid) {
    && |r.threads| == |s.threads| && (forall u :: 0 <= u < |s.threads| && u != t ==> r.threads[u] == s.threads[u])
    && |r.sets| >= n && |s.sets| >= n && r.sets[..n] == s.sets[..n] && |r.blocks| == |s.blocks|
  }

  lemma LoneStep(s: State, t: Tid, bs: seq<Bid>, n: Sid, r: State)
    requires Typed(s) && Lone(s, t, bs, n) && !s.threads[t].Modify? && DirtierStep(s, t) == Some(r)
    requires s.threads[t].Loop? && s.threads[t].large.None? ==> s.threads[t].i < |bs|
    ensures Lone(r, t, bs, n) && OthersSame(s, r, t, n) && !Blocked(s, t, s.threads[t])
  {
    var pc := s.threads[t];
    hide Merge, DropSmall, End, ReleaseOne, Resume;
    if pc.Loop? {
      LoneFetch(s, t, bs, n, r);
    }
  }

  lemma LoneFetch(s: State, t: Tid, bs: seq<Bid>, n: Sid, r: State)
    requires Typed(s) && Lone(s, t, bs, n) && s.threads[t].Loop? && Fetch(s, t, s.threads[t]) == Some(r)
    ensures Lone(r, t, bs, n) && OthersSame(s, r, t, n)
  {
    var pc := s.threads[t];
    if pc.i < |bs| {
      assert bs[pc.i] in bs;
    }
  }

  lemma {:induction false} LoneRun(s: State, t: Tid, bs: seq<Bid>, n: Sid) returns (acts: seq<Action>, r: State)
    requires Reachable(s) && Lone(s, t, bs, n)
    ensures Alone(acts, t) && Exec(s, acts) == Some(r) && Lone(r, t, bs, n) && r.threads[t].Modify?
    ensures OthersSame(s, r, t, n) && Inside(s, acts, t)
    decreases Phase(s.threads[t]), StepsLeft(s.threads[t])
  {
    hide Reachable, Inv, Typed, Next;
    if s.threads[t].Modify? {
      acts, r := [], s;
      assert r.sets[..n] == s.sets[..n] by { LoneSize(s, t, bs, n); }
    } else {
      LoneTries(s, t, bs, n);
      CallAdvances(s, t);
      var m := Next(s, Dirtier(t)).value;
      NextOfDirtier(s, t, m);
      LoneStep(s, t, bs, n, m);
      LoneMoves(m, t, bs, n);
      LoneInCall(m, t, bs, n);
      ReachableNext(s, Dirtier(t), m);
      var more;
      more, r := LoneRun(m, t, bs, n);
      acts := [Dirtier(t)] + more;
      assert acts[1..] == more;
    }
  }

  lemma LoneSize(s: State, t: Tid, bs: seq<Bid>, n: Sid)
    requires Lone(s, t, bs, n)
    ensures n <= |s.sets|
  {
  }

  lemma LoneTries(s: State, t: Tid, bs: seq<Bid>, n: Sid)
    requires Lone(s, t, bs, n) && !s.threads[t].Modify?
    ensures Trying(s.threads[t])
    ensures s.threads[t].Loop? && s.threads[t].large.None? ==> s.threads[t].i < |bs|
  {
  }

  lemma LoneMoves(s: State, t: Tid, bs: seq<Bid>, n: Sid)
    requires Lone(s, t, bs, n)
    ensures !s.threads[t].Release?
  {
  }

  lemma LoneInCall(s: State, t: Tid, bs: seq<Bid>, n: Sid)
    requires Lone(s, t, bs, n)
    ensures s.threads[t] != Outside
  {
  }

  lemma NextOfDirtier(s: State, t: Tid, r: State)
    requires Typed(s) && t < |s.threads| && Next(s, Dirtier(t)) == Some(r)
    ensures DirtierStep(s, t) == Some(r)
  {
    hide DirtierStep;
  }

  // ---- calls and syncs succeed ----

  /** Outside, waiting, in sync, or about to look at its first block. */
  predicate Paused(pc: Pc) {
    pc.Outside? || pc.Wait? || pc.Syncing? || pc.SeenSeq? || (pc.Loop? && pc.large.None?)
  }

  predicate AllPaused(s: State) {
    forall t :: 0 <= t < |s.threads| ==> Paused(s.threads[t])
  }

  lemma PausedHoldNothing(s: State)
    requires Inv(s) && AllPaused(s)
    ensures NobodyHolds(s)
  {
    hide Inv, NobodyHolds;
    forall t | 0 <= t < |s.threads|
      ensures Holds(s.threads[t]) == []
    {
      assert Paused(s.threads[t]);
    }
    NoHolders(s);
  }

  lemma NoLoose(s: State, x: Sid)
    requires OpenOk(s) && AllPaused(s) && x < |s.sets|
    ensures !Loose(s.sets[x])
  {
    hide Loose;
    assert forall t :: 0 <= t < |s.threads| ==> Paused(s.threads[t]) && !About(s.threads[t], x);
  }

  lemma CleanSet(st: BlockSet)
    requires BitsOk(st) && !Loose(st) && st.dirtying.None? && st.stage in {Open, Done, Dead}
    ensures st.list == []
  {
  }

  /** Then a clean state has no block in any set. */
  lemma CleanIsUnowned(s: State)
    requires Reachable(s) && AllPaused(s) && Clean(s)
    ensures Unowned(s)
  {
    hide Reachable, Inv, OpenOk, AllPaused, Loose;
    ReachableHolds(s);
    ReachableCalls(s);
    PausedHoldNothing(s);
    SetBits(s);
    forall x | 0 <= x < |s.sets|
      ensures s.sets[x].list == []
    {
      NoLoose(s, x);
      CleanSet(s.sets[x]);
    }
    InvParts(s);
    hide SetsOk, BlocksOk, ThreadsOk, HeldsOk, InTurn, WorkerOk, CountsOk, BitsOk;
    forall b | 0 <= b < |s.blocks|
      ensures s.blocks[b].owner.None?
    {
      BlockAt(s, b);
    }
  }

  /** dirty_begin has succeeded: exactly these blocks are dirty, all in the one set that t holds. */
  predicate Succeeded(s: State, t: Tid, want: seq<Bid>) {
    && t < |s.threads| && s.threads[t].Modify? && s.threads[t].bs == want
    && s.threads[t].first < |s.sets| && s.sets[s.threads[t].first].dirtying == Some(t)
    && (forall b :: 0 <= b < |s.blocks| ==>
          && (s.blocks[b].dirty <==> b in want)
          && (b in want ==> s.blocks[b].owner == Some(s.threads[t].first)))
  }

  lemma LoneSucceeds(s: State, t: Tid, bs: seq<Bid>, n: Sid)
    requires Reachable(s) && Lone(s, t, bs, n) && s.threads[t].Modify?
    ensures Succeeded(s, t, bs)
  {
    hide Reachable, Inv;
    ReachableHolds(s);
    InvParts(s);
    hide SetsOk, BlocksOk, ThreadsOk, HeldsOk, InTurn, WorkerOk, CountsOk;
    HeldTogether(s, t, 0);
    forall b | 0 <= b < |s.blocks|
      ensures s.blocks[b].dirty <==> b in bs
      ensures b in bs ==> s.blocks[b].owner == Some(n)
    {
      BlockAt(s, b);
      if b in bs {
        var j: nat :| j < |bs| && bs[j] == b;
        HeldTogether(s, t, j);
      }
    }
  }

  /** From a state with no block in a set a walk that starts succeeds by its own steps. */
  lemma WalkSucceeds(s: State, t: Tid) returns (acts: seq<Action>, r: State)
    requires Reachable(s) && Unowned(s) && t < |s.threads|
    requires s.threads[t].Loop? && s.threads[t].i == 0 && s.threads[t].large.None?
    ensures Alone(acts, t) && Exec(s, acts) == Some(r) && Inside(s, acts, t) && Succeeded(r, t, s.threads[t].bs)
    ensures |r.sets| == |s.sets| + 1 && r.sets[..|s.sets|] == s.sets
  {
    hide Reachable, Inv, Succeeded;
    ReachableHolds(s);
    InvTypedThread(s, t);
    var bs := s.threads[t].bs;
    acts, r := LoneRun(s, t, bs, |s.sets|);
    ReachableRun(s, acts, r);
    LoneSucceeds(r, t, bs, |s.sets|);
    assert s.sets[..|s.sets|] == s.sets;
  }

  lemma DrainPaused(s: State) returns (acts: seq<Action>, r: State)
    requires Reachable(s) && AllPaused(s)
    ensures ServeRun(s, acts) && Exec(s, acts) == Some(r) && Clean(r) && Reachable(r) && Typed(r) && Unowned(r)
    ensures r.threads == s.threads && |r.sets| == |s.sets| && WritesKept(s, r) && r.dirtySeq == s.dirtySeq
    ensures NobodyHolds(r)
  {
    hide Reachable, Inv, Typed, Next, Clean, NobodyHolds, WritesKept, Unowned, ServeRun;
    ReachableHolds(s);
    PausedHoldNothing(s);
    acts, r := DrainFrom(s);
    ServeRunFalls(s, acts, r);
    ReachableRun(s, acts, r);
    CleanIsUnowned(r);
  }

  /** A new call can always succeed: while all threads are outside or wait, there is a run to a state in
      which t has exactly its blocks dirty, all in one set, the others being written by then. */
  lemma NewCallSucceeds(s: State, t: Tid, want: seq<Bid>)
    requires Reachable(s) && AllPaused(s) && t < |s.threads| && s.threads[t].Outside?
    requires want != [] && InRange(want, |s.blocks|)
    ensures exists acts: seq<Action> :: Exec(s, acts).Some? && Succeeded(Exec(s, acts).value, t, want)
  {
    hide Reachable, Inv, Succeeded;
    var a, m := DrainPaused(s);
    var c := At(m, t, Loop(want, 0, None));
    ReachableNext(m, Begin(t, want), c);
    var d, r := WalkSucceeds(c, t);
    assert Exec(m, [Begin(t, want)]) == Some(c) by { ExecOne(m, Begin(t, want), c); }
    hide Exec;
    ExecConcat(s, a, m, [Begin(t, want)], c);
    ExecConcat(s, a + [Begin(t, want)], c, d, r);
    assert Exec(s, a + [Begin(t, want)] + d) == Some(r);
  }

  /** Taken by the worker while it is empty, or about to be. */
  predicate Hollow(st: BlockSet) {
    st.stage == Dead || ((st.stage == Pending || st.stage == Taken) && st.list == [])
  }

  lemma HollowWork(s: State, r: State, x: Sid)
    requires Inv(s) && Typed(s) && WorkerStep(s) == Some(r) && x < |s.sets|
    ensures x < |r.sets| && (Hollow(r.sets[x]) <==> Hollow(s.sets[x]))
  {
    hide SetsOk, BlocksOk, ThreadsOk, HeldsOk, CountsOk, SyncsOk, Charge, Reverse, IoOk;
    SetBits(s);
    if s.list != [] {
      FirstPending(s);
    }
  }

  lemma HollowStep(s: State, a: Action, r: State, x: Sid)
    requires Inv(s) && Typed(s) && Serves(s, a) && Next(s, a) == Some(r) && x < |s.sets|
    ensures x < |r.sets| && (Hollow(r.sets[x]) <==> Hollow(s.sets[x]))
  {
    hide SetsOk, BlocksOk, ThreadsOk, HeldsOk, CountsOk, SyncsOk, InTurn, WorkerOk, Debit, WorkerStep;
    match a
    case Work => HollowWork(s, r, x);
    case Drops(b) => InFlight(s, b);
    case _ =>
  }

  lemma {:induction false} HollowRun(s: State, acts: seq<Action>, r: State, x: Sid)
    requires Inv(s) && ServeRun(s, acts) && Exec(s, acts) == Some(r) && x < |s.sets|
    ensures x < |r.sets| && (Hollow(r.sets[x]) <==> Hollow(s.sets[x]))
    decreases |acts|
  {
    hide Inv, Typed, Next, Serves, Hollow;
    if acts != [] {
      var m := Next(s, acts[0]).value;
      HollowStep(s, acts[0], m, x);
      StepKeeps(s, acts[0], m);
      HollowRun(m, acts[1..], r, x);
    }
  }

  lemma ServedWaitOver(r: State, t: Tid)
    requires Reachable(r) && Clean(r) && NobodyHolds(r) && t < |r.threads| && r.threads[t].Wait?
    ensures r.threads[t].next.ForWriteback? ==> r.threads[t].next.on < |r.sets|
    ensures !(r.threads[t].next.ForWriteback? && Hollow(r.sets[r.threads[t].next.on])) ==> Over(r, r.threads[t].next)
  {
    hide Reachable, Inv, GoalsOk, OpenOk;
    ReachableHolds(r);
    ReachableCalls(r);
    SetBits(r);
    InvTypedThread(r, t);
    assert GoalOf(r.threads[t]) <= r.dirtySeq by { GoalAt(r, t); }
    var pc := r.threads[t];
    if pc.next.ForWriteback? || pc.next.ForDirtying? {
      assert Eyes(pc)[0] == pc.next.on;
    }
  }

  lemma GoalAt(s: State, t: Tid)
    requires GoalsOk(s) && t < |s.threads|
    ensures GoalOf(s.threads[t]) <= s.dirtySeq
  {
  }

  /** A run of one thread, as far as it stays in its call. */
  lemma {:induction false} InsideConcat(s: State, a: seq<Action>, m: State, c: seq<Action>, t: Tid)
    requires Exec(s, a) == Some(m) && Inside(s, a, t) && Inside(m, c, t)
    ensures Inside(s, a + c, t)
    decreases |a|
  {
    hide Typed, Next;
    if a == [] {
      assert a + c == c;
    } else {
      assert (a + c)[1..] == a[1..] + c;
      InsideConcat(Next(s, a[0]).value, a[1..], m, c, t);
    }
  }

  lemma {:induction false} ServeInside(s: State, acts: seq<Action>, t: Tid)
    requires Inv(s) && NobodyHolds(s) && ServeRun(s, acts) && t < |s.threads| && s.threads[t] != Outside
    ensures Inside(s, acts, t)
    decreases |acts|
  {
    hide Inv, Typed, Next, NobodyHolds, Serves, Left;
    if acts != [] {
      var m := Next(s, acts[0]).value;
      StepKeeps(s, acts[0], m);
      ServeFalls(s, acts[0], m);
      ServeInside(m, acts[1..], t);
    }
  }

  /** Some run, without the thread leaving its call, takes it to its success. */
  ghost predicate CanSucceed(s: State, t: Tid, bs: seq<Bid>) {
    exists acts: seq<Action> :: Exec(s, acts).Some? && Inside(s, acts, t) && Succeeded(Exec(s, acts).value, t, bs)
  }

  lemma CanLater(s: State, acts: seq<Action>, m: State, t: Tid, bs: seq<Bid>)
    requires Exec(s, acts) == Some(m) && Inside(s, acts, t) && CanSucceed(m, t, bs)
    ensures CanSucceed(s, t, bs)
  {
    hide Exec, Inside, Succeeded;
    var more: seq<Action> :| Exec(m, more).Some? && Inside(m, more, t) && Succeeded(Exec(m, more).value, t, bs);
    ExecConcat(s, acts, m, more, Exec(m, more).value);
    InsideConcat(s, acts, m, more, t);
  }

  lemma DrainInside(s: State, t: Tid) returns (acts: seq<Action>, r: State)
    requires Reachable(s) && AllPaused(s) && t < |s.threads| && s.threads[t] != Outside
    ensures ServeRun(s, acts) && Exec(s, acts) == Some(r) && Inside(s, acts, t)
    ensures Clean(r) && Reachable(r) && Typed(r) && Unowned(r) && NobodyHolds(r) && r.threads == s.threads
  {
    hide Reachable, Inv, ServeRun, Exec, Inside, Clean, Unowned, NobodyHolds, AllPaused;
    acts, r := DrainPaused(s);
    ReachableHolds(s);
    PausedHoldNothing(s);
    ServeInside(s, acts, t);
  }

  lemma SucceedsFromLoop(s: State, t: Tid)
    requires Reachable(s) && AllPaused(s) && t < |s.threads|
    requires s.threads[t].Loop? && s.threads[t].i == 0 && s.threads[t].large.None?
    ensures CanSucceed(s, t, s.threads[t].bs)
  {
    hide Reachable, Inv, Succeeded, Exec, Inside, AllPaused, Clean, Unowned;
    var a, m := DrainInside(s, t);
    var c, r := WalkSucceeds(m, t);
    CanLater(s, a, m, t, s.threads[t].bs);
  }

  lemma SucceedsFromOver(s: State, t: Tid)
    requires Reachable(s) && Typed(s) && AllPaused(s) && t < |s.threads| && s.threads[t].Wait?
    requires Over(s, s.threads[t].next)
    ensures CanSucceed(s, t, s.threads[t].bs)
  {
    hide Reachable, Inv, Typed, Exec, Inside, Over;
    var a := WaitEnds(s, t);
    var m := At(s, t, Loop(s.threads[t].bs, 0, None));
    ReachableRun(s, a, m);
    SucceedsFromLoop(m, t);
    CanLater(s, a, m, t, s.threads[t].bs);
  }

  // ---- sets that will never be let go ----

  /** Taken by the worker while it is empty, or past the worker's tests and about to be. */
  predicate Doomed(s: State, x: Sid) {
    x < |s.sets| &&
    match s.sets[x].stage
    case Dead => true
    case Taken => s.sets[x].list == []
    case Pending => s.sets[x].list == [] && s.worker == Testing(x) && s.sets[x].dirtying.None?
    case _ => false
  }

  /** No thread holds the set or is about to lock it. */
  predicate Untouched(pc: Pc, x: Sid) {
    x !in Holds(pc) && !About(pc, x)
  }

  predicate AllUntouched(s: State, x: Sid) {
    forall t :: 0 <= t < |s.threads| ==> Untouched(s.threads[t], x)
  }

  predicate StaysAway(s: State, t: Tid, r: State, x: Sid) {
    && x < |s.sets| && x < |r.sets| && t < |r.threads|
    && r.sets[x] == s.sets[x] && Untouched(r.threads[t], x)
  }

  lemma DirtierAway(s: State, t: Tid, r: State, x: Sid)
    requires Inv(s) && Typed(s) && t < |s.threads| && DirtierStep(s, t) == Some(r)
    requires x < |s.sets| && s.sets[x].list == [] && Untouched(s.threads[t], x)
    ensures StaysAway(s, t, r, x)
  {
    hide Inv, Typed, StaysAway, Untouched, Fetch, TryLock, TestWriteback, CheckOwner, Merge, DropSmall, MarkOne;
    hide CommitSet, End, ReleaseOne, Resume;
    var pc := s.threads[t];
    match pc
    case Loop(_, _, _) => FetchAway(s, t, pc, r, x);
    case Lock(_, _, _, _) => LockAway(s, t, pc, r, x);
    case Locked(_, _, _, _) => TestAway(s, t, pc, r, x);
    case Tested(_, _, _, _) => TestAway(s, t, pc, r, x);
    case Both(_, _, _, _) => MergeAway(s, t, pc, r, x);
    case Merged(_, _, _, _) => UnlockAway(s, t, pc, r, x);
    case Mark(_, _, _) => MarkAway(s, t, pc, r, x);
    case Commit(_, _) => MarkAway(s, t, pc, r, x);
    case Modify(_, _) => UnlockAway(s, t, pc, r, x);
    case Release(_, _, _) => ReleaseAway(s, t, pc, r, x);
    case Wait(_, _) => WaitAway(s, t, pc, r, x);
  }

  lemma FetchAway(s: State, t: Tid, pc: Pc, r: State, x: Sid)
    requires Inv(s) && Typed(s) && t < |s.threads| && pc == s.threads[t] && pc.Loop? && Fetch(s, t, pc) == Some(r)
    requires x < |s.sets| && s.sets[x].list == [] && Untouched(pc, x)
    ensures StaysAway(s, t, r, x)
  {
    hide SetsOk, BlocksOk, ThreadsOk, HeldsOk, InTurn, WorkerOk, CountsOk, SyncsOk;
    if pc.large.Some? {
      assert Holds(pc)[0] == pc.large.value;
    }
    if pc.i < |pc.bs| {
      assert Asked(pc)[pc.i] == pc.bs[pc.i];
      BlockAt(s, pc.bs[pc.i]);
    }
  }

  lemma LockAway(s: State, t: Tid, pc: Pc, r: State, x: Sid)
    requires Typed(s) && t < |s.threads| && pc == s.threads[t] && pc.Lock? && TryLock(s, t, pc) == Some(r)
    requires x < |s.sets| && Untouched(pc, x)
    ensures StaysAway(s, t, r, x)
  {
    assert Eyes(pc)[0] == pc.small;
  }

  lemma TestAway(s: State, t: Tid, pc: Pc, r: State, x: Sid)
    requires Typed(s) && t < |s.threads| && pc == s.threads[t]
    requires (pc.Locked? && TestWriteback(s, t, pc) == Some(r)) || (pc.Tested? && CheckOwner(s, t, pc) == Some(r))
    requires x < |s.sets| && Untouched(pc, x)
    ensures StaysAway(s, t, r, x)
  {
    assert Holds(pc)[|Holds(pc)| - 1] == pc.small;
    assert pc.large.Some? ==> Holds(pc)[0] == pc.large.value;
  }

  lemma WaitAway(s: State, t: Tid, pc: Pc, r: State, x: Sid)
    requires Typed(s) && t < |s.threads| && pc == s.threads[t] && pc.Wait? && Resume(s, t, pc) == Some(r)
    requires x < |s.sets|
    ensures StaysAway(s, t, r, x)
  {
  }

  lemma MergeAway(s: State, t: Tid, pc: Pc, r: State, x: Sid)
    requires Typed(s) && t < |s.threads| && pc == s.threads[t] && pc.Both? && Merge(s, t, pc) == Some(r)
    requires x < |s.sets| && Untouched(pc, x)
    ensures StaysAway(s, t, r, x)
  {
    hide Splice, Repointed, Swaps;
    assert Holds(pc)[0] == pc.first && Holds(pc)[1] == pc.small;
  }

  lemma MarkAway(s: State, t: Tid, pc: Pc, r: State, x: Sid)
    requires Typed(s) && t < |s.threads| && pc == s.threads[t]
    requires (pc.Mark? && MarkOne(s, t, pc) == Some(r)) || (pc.Commit? && CommitSet(s, t, pc) == Some(r))
    requires x < |s.sets| && Untouched(pc, x)
    ensures StaysAway(s, t, r, x)
  {
    assert Holds(pc)[0] == pc.first;
  }

  lemma UnlockAway(s: State, t: Tid, pc: Pc, r: State, x: Sid)
    requires Inv(s) && Typed(s) && t < |s.threads| && pc == s.threads[t]
    requires (pc.Merged? && DropSmall(s, t, pc) == Some(r)) || (pc.Modify? && End(s, t, pc) == Some(r))
    requires x < |s.sets| && Untouched(pc, x)
    ensures StaysAway(s, t, r, x)
  {
    hide SetsOk, BlocksOk, ThreadsOk, HeldsOk, InTurn, WorkerOk, CountsOk, SyncsOk;
    ThreadAt(s, t);
    if pc.Modify? {
      assert Asked(pc)[0] == pc.bs[0];
      assert s.blocks[pc.bs[0]].owner == Some(pc.first);
      assert Holds(pc)[0] == pc.first;
    } else {
      assert Holds(pc)[1] == pc.small && Holds(pc)[0] == pc.first;
    }
  }

  lemma ReleaseAway(s: State, t: Tid, pc: Pc, r: State, x: Sid)
    requires Typed(s) && t < |s.threads| && pc == s.threads[t] && pc.Release? && ReleaseOne(s, t, pc) == Some(r)
    requires x < |s.sets| && Untouched(pc, x)
    ensures StaysAway(s, t, r, x)
  {
    if pc.held != [] {
      assert Holds(pc)[0] == pc.held[0];
    }
  }

  lemma DoomedShows(s: State, x: Sid)
    requires Inv(s) && Doomed(s, x)
    ensures s.sets[x].writeback && s.sets[x].list == []
  {
    hide SetsOk, BlocksOk, ThreadsOk, HeldsOk, InTurn, CountsOk, SyncsOk;
    SetBits(s);
  }

  lemma DoomedWork(s: State, r: State, x: Sid)
    requires Inv(s) && Typed(s) && WorkerStep(s) == Some(r) && Doomed(s, x)
    ensures Doomed(r, x)
  {
    hide SetsOk, BlocksOk, ThreadsOk, HeldsOk, CountsOk, SyncsOk, Charge, Reverse;
    SetBits(s);
    if s.list != [] {
      FirstPending(s);
    }
  }

  lemma DoomedOther(s: State, a: Action, r: State, x: Sid)
    requires Inv(s) && Typed(s) && Next(s, a) == Some(r) && !a.Dirtier? && !a.Work? && Doomed(s, x)
    ensures Doomed(r, x)
  {
    hide SetsOk, BlocksOk, ThreadsOk, HeldsOk, CountsOk, SyncsOk, InTurn, WorkerOk, Debit;
    if a.Drops? && s.blocks[a.b].io == Counted {
      InFlight(s, a.b);
    }
  }

  lemma OtherAway(s: State, a: Action, r: State, x: Sid)
    requires Typed(s) && Next(s, a) == Some(r) && !a.Dirtier? && AllUntouched(s, x)
    ensures AllUntouched(r, x)
  {
    hide WorkerStep, Drop, Retire, IoDone;
    if a.Work? {
      WorkMoves(s, r);
    } else if a.Completes? || a.Drops? || a.Retires? {
      OthersStay(s, a, r);
    }
  }

  lemma DoomedStep(s: State, a: Action, r: State, x: Sid)
    requires Inv(s) && Typed(s) && Next(s, a) == Some(r) && Doomed(s, x) && AllUntouched(s, x)
    ensures Doomed(r, x) && AllUntouched(r, x)
  {
    hide Inv, DirtierStep, WorkerStep, Drop, Retire, Untouched;
    match a
    case Dirtier(t) =>
      DoomedShows(s, x);
      DirtierLocal(s, t, r);
      DirtierAway(s, t, r, x);
    case Work =>
      DoomedWork(s, r, x);
      OtherAway(s, a, r, x);
    case _ =>
      DoomedOther(s, a, r, x);
      OtherAway(s, a, r, x);
  }

  lemma {:induction false} DoomedForGood(s: State, acts: seq<Action>, r: State, t: Tid, x: Sid)
    requires Inv(s) && Exec(s, acts) == Some(r) && Doomed(s, x) && AllUntouched(s, x)
    requires t < |s.threads| && s.threads[t].Wait? && s.threads[t].next == ForWriteback(x)
    ensures t < |r.threads| && r.threads[t] == s.threads[t]
    decreases |acts|
  {
    hide Inv, Typed, Next, Doomed, AllUntouched;
    if acts != [] {
      InvTyped(s);
      var m := Next(s, acts[0]).value;
      DoomedShows(s, x);
      assert x < |s.sets| by { DoomedRange(s, x); }
      WaiterStays(s, acts[0], m, t, x);
      DoomedStep(s, acts[0], m, x);
      StepKeeps(s, acts[0], m);
      DoomedForGood(m, acts[1..], r, t, x);
    }
  }

  lemma DoomedRange(s: State, x: Sid)
    requires Doomed(s, x)
    ensures x < |s.sets|
  {
  }

  /** A waiting call can still succeed, with all the blocks it was called for, exactly unless it waits for
      the WRITEBACK bit of a set that the worker took while it was empty, or is past testing so. */
  lemma WaitingCallSucceedsIff(s: State, t: Tid)
    requires Reachable(s) && AllPaused(s) && t < |s.threads| && s.threads[t].Wait?
    ensures CanSucceed(s, t, s.threads[t].bs) <==>
            !(s.threads[t].next.ForWriteback? && Doomed(s, s.threads[t].next.on))
  {
    hide Reachable, Inv, Typed, Exec, Inside, Doomed, Over, Clean, Unowned, NobodyHolds;
    ReachableHolds(s);
    var pc := s.threads[t];
    if pc.next.ForWriteback? && Doomed(s, pc.next.on) {
      NeverSucceeds(s, t, pc.next.on);
    } else if Over(s, pc.next) {
      SucceedsFromOver(s, t);
    } else {
      hide AllPaused;
      SucceedsLater(s, t);
    }
  }

  lemma NeverSucceeds(s: State, t: Tid, x: Sid)
    requires Reachable(s) && AllPaused(s) && t < |s.threads| && s.threads[t].Wait?
    requires s.threads[t].next == ForWriteback(x) && Doomed(s, x)
    ensures !CanSucceed(s, t, s.threads[t].bs)
  {
    hide Reachable, Inv, Typed, Exec, Inside, Doomed;
    ReachableHolds(s);
    forall u | 0 <= u < |s.threads|
      ensures Untouched(s.threads[u], x)
    {
      assert Paused(s.threads[u]);
    }
    if CanSucceed(s, t, s.threads[t].bs) {
      var acts: seq<Action> :|
        Exec(s, acts).Some? && Inside(s, acts, t) && Succeeded(Exec(s, acts).value, t, s.threads[t].bs);
      DoomedForGood(s, acts, Exec(s, acts).value, t, x);
    }
  }

  /** The worker gives the set back, or everything is written. */
  lemma SucceedsLater(s: State, t: Tid)
    requires Reachable(s) && AllPaused(s) && t < |s.threads| && s.threads[t].Wait?
    requires !Over(s, s.threads[t].next)
    requires !(s.threads[t].next.ForWriteback? && Doomed(s, s.threads[t].next.on))
    ensures CanSucceed(s, t, s.threads[t].bs)
  {
    hide Reachable, Inv, Exec, Inside, Clean, Unowned, NobodyHolds;
    ReachableHolds(s);
    var pc := s.threads[t];
    if pc.next.ForWriteback? && s.worker == Backing(pc.next.on) {
      var m := Next(s, Work).value;
      BackedOver(s, t, pc.next.on, m);
      ReachableNext(s, Work, m);
      ExecOne(s, Work, m);
      SucceedsFromOver(m, t);
      CanLater(s, [Work], m, t, pc.bs);
    } else {
      hide AllPaused;
      if pc.next.ForWriteback? {
        NotDoomed(s, t, pc.next.on);
      }
      var a, m := DrainInside(s, t);
      if pc.next.ForWriteback? {
        HollowRun(s, a, m, pc.next.on);
      }
      ServedWaitOver(m, t);
      SucceedsFromOver(m, t);
      CanLater(s, a, m, t, pc.bs);
    }
  }

  lemma BackedOver(s: State, t: Tid, x: Sid, m: State)
    requires Typed(s) && s.worker == Backing(x) && WorkerStep(s) == Some(m) && AllPaused(s)
    ensures AllPaused(m) && m.threads == s.threads && Over(m, ForWriteback(x))
  {
  }

  lemma NotDoomed(s: State, t: Tid, x: Sid)
    requires Inv(s) && AllPaused(s) && t < |s.threads| && s.threads[t].Wait? && s.threads[t].next == ForWriteback(x)
    requires !Over(s, ForWriteback(x)) && !Doomed(s, x) && s.worker != Backing(x)
    ensures x < |s.sets| && !Hollow(s.sets[x])
  {
    hide SetsOk, BlocksOk, ThreadsOk, HeldsOk, CountsOk, SyncsOk, InTurn;
    InvTypedThread(s, t);
    assert Eyes(s.threads[t])[0] == x;
    PausedHoldNothing(s);
  }

  // ---- syncs return ----

  /** A sync can always return, and then whatever was dirty has been written. */
  lemma SyncCanReturn(s: State, t: Tid)
    requires Reachable(s) && AllPaused(s) && t < |s.threads| && (s.threads[t].Syncing? || s.threads[t].SeenSeq?)
    ensures exists acts: seq<Action> :: Exec(s, acts).Some?
              && var r := Exec(s, acts).value;
                 && t < |r.threads| && r.threads[t] == Outside && |r.blocks| == |s.blocks|
                 && forall b :: 0 <= b < |s.blocks| ==>
                      && !r.blocks[b].dirty
                      && (s.blocks[b].dirty && Unwritten(s.blocks[b]) ==> r.blocks[b].writes > s.blocks[b].writes)
  {
    hide Reachable, Inv, GoalsOk, OpenOk, AllPaused, Exec, ServeRun, NobodyHolds, Unowned;
    var a, m := DrainPaused(s);
    ReachableCalls(s);
    assert GoalOf(s.threads[t]) <= s.dirtySeq by { GoalAt(s, t); }
    var c := SyncEnds(m, t);
    ExecConcat(s, a, m, c, At(m, t, Outside));
  }
}
