/** Runs of the dirty-set protocol, step by step, in which a caller gets less than the comments in
    the code promise (shared/block.c:330-351, 618-654, 898-902, 917-941, 998-1007). */
module DirtyMissed {
  import opened Options
  import opened DirtySets
  import opened DirtyInvariant
  import opened DirtyRuns
  import opened DirtySync
  import opened DirtyServed
  import opened DirtyStale
  import opened DirtyCode
  import opened DirtyWake

  predicate Uncompleted(acts: seq<Action>) {
    forall k :: 0 <= k < |acts| ==> !acts[k].Completes?
  }

  predicate Followed(pc: Pc) {
    pc.Merged? || pc.Loop? || pc.Lock? || pc.Release? || pc.Locked? || pc.Tested? || pc.Mark? || pc.Commit? || pc.Modify?
  }

  lemma FollowedTyped(s: State, t: Tid, r: State)
    requires Typed(s) && t < |s.threads| && Followed(s.threads[t]) && DirtierStep(s, t) == Some(r)
    ensures Typed(r)
  {
    hide Fetch, TryLock, DropSmall, ReleaseOne, TestWriteback, CheckOwner, MarkOne, CommitSet, End;
    var pc := s.threads[t];
    if pc.Loop? {
      LoopTyped(s, t, pc, r);
    } else if pc.Release? {
      ReleaseTyped(s, t, pc, r);
    } else if pc.Locked? || pc.Tested? {
      TestTyped(s, t, pc, r);
    } else if pc.Mark? || pc.Commit? {
      MarkTyped(s, t, pc, r);
    } else if pc.Modify? {
      EndTyped(s, t, pc, r);
    } else {
      LockTyped(s, t, pc, r);
    }
  }

  /** The same without reachability, for states that only the code as written gets to. */
  lemma GoOn(s: State, acts: seq<Action>, m: State, a: Action, r: State)
    requires Exec(s, acts) == Some(m) && Typed(m) && Next(m, a) == Some(r)
    requires a == Work || a.Begin? || a.Retires? || a.Completes? || a.Drops? || (a.Dirtier? && a.t < |m.threads| && Followed(m.threads[a.t]))
    ensures Exec(s, acts + [a]) == Some(r) && Typed(r)
  {
    hide Typed, DirtierStep, WorkerStep, IoDone, Drop, Retire, Exec;
    ExecMore(s, acts, m, a, r);
    if a == Work {
      WorkTyped(m, r);
    } else if a.Begin? {
      BeginTyped(m, a.t, a.want, r);
    } else if a.Retires? {
      RetireTyped(m, a.x, r);
    } else if a.Completes? || a.Drops? {
      IoTyped(m, a.b, r);
    } else {
      FollowedTyped(m, a.t, r);
    }
  }

  lemma NoSteps(s: State)
    ensures Exec(s, []) == Some(s)
  {
  }

  lemma StepOn(s: State, acts: seq<Action>, m: State, a: Action, r: State)
    requires Exec(s, acts) == Some(m) && Reachable(m) && Typed(m) && Next(m, a) == Some(r)
    ensures Exec(s, acts + [a]) == Some(r) && Reachable(r) && Typed(r)
  {
    hide Reachable, Typed, Next, Exec;
    ExecMore(s, acts, m, a, r);
    ReachableNext(m, a, r);
  }

  // ---- thread 0 dirties block 0 ----

  /** Four blocks and four threads, nothing dirty. */
  function Nothing(): State {
    State([Block(None, false, Idle, false, 0),
           Block(None, false, Idle, false, 0),
           Block(None, false, Idle, false, 0),
           Block(None, false, Idle, false, 0)],
          [],
          [Outside,
           Outside,
           Outside,
           Outside],
          Resting, [], [], 0, 0, 0, 0)
  }

  /** Block 0 is dirty in set 0, which carries number 1 and is queued. */
  function OneDirty(): State {
    State([Block(Some(0), true, Idle, false, 0),
           Block(None, false, Idle, false, 0),
           Block(None, false, Idle, false, 0),
           Block(None, false, Idle, false, 0)],
          [BlockSet([0], 1, 0, 1, None, true, false, Pending)],
          [Outside,
           Outside,
           Outside,
           Outside],
          Resting, [0], [], 1, 0, 1, 0)
  }

  lemma DirtiesFirst() returns (acts: seq<Action>)
    requires Reachable(Nothing()) && Typed(Nothing())
    ensures Reachable(OneDirty()) && Typed(OneDirty()) && Exec(Nothing(), acts) == Some(OneDirty())
    ensures |acts| == 10 && acts[0] == Begin(0, [0])
    ensures Uncompleted(acts)
  {
    hide Reachable, Exec, Typed;
    var s0 := Nothing();
    acts := [];
    NoSteps(s0);
    var s1 := Moved(s0, 0, Loop([0], 0, None));
    StepOn(s0, acts, s0, Begin(0, [0]), s1);
    acts := acts + [Begin(0, [0])];
    var s2 := Moved(s1, 0, Lock([0], 0, None, 0)).(
      blocks := s1.blocks[0 := s1.blocks[0].(owner := Some(0))],
      sets := s1.sets + [BlockSet([0], 1, 0, 0, None, false, false, Open)]);
    StepOn(s0, acts, s1, Dirtier(0), s2);
    acts := acts + [Dirtier(0)];
    var s3 := Moved(s2, 0, Locked([0], 0, None, 0)).(sets := s2.sets[0 := s2.sets[0].(dirtying := Some(0))]);
    StepOn(s0, acts, s2, Dirtier(0), s3);
    acts := acts + [Dirtier(0)];
    var s4 := Moved(s3, 0, Tested([0], 0, None, 0));
    StepOn(s0, acts, s3, Dirtier(0), s4);
    acts := acts + [Dirtier(0)];
    var s5 := Moved(s4, 0, Loop([0], 1, Some(0)));
    StepOn(s0, acts, s4, Dirtier(0), s5);
    acts := acts + [Dirtier(0)];
    var s6 := Moved(s5, 0, Mark([0], 0, 1));
    StepOn(s0, acts, s5, Dirtier(0), s6);
    acts := acts + [Dirtier(0)];
    var s7 := Moved(s6, 0, Mark([0], 0, 0)).(
      blocks := s6.blocks[0 := s6.blocks[0].(dirty := true)], nrDirty := s6.nrDirty + 1);
    StepOn(s0, acts, s6, Dirtier(0), s7);
    acts := acts + [Dirtier(0)];
    var s8 := Moved(s7, 0, Commit([0], 0));
    StepOn(s0, acts, s7, Dirtier(0), s8);
    acts := acts + [Dirtier(0)];
    var s9 := Moved(s8, 0, Modify([0], 0)).(
      sets := s8.sets[0 := s8.sets[0].(dirty := true, dirtySeq := s8.dirtySeq + 1, stage := Pending)],
      dirtySeq := s8.dirtySeq + 1, llist := [0] + s8.llist);
    StepOn(s0, acts, s8, Dirtier(0), s9);
    acts := acts + [Dirtier(0)];
    var s10 := Moved(s9, 0, Outside).(sets := s9.sets[0 := s9.sets[0].(dirtying := None)]);
    StepOn(s0, acts, s9, Dirtier(0), s10);
    acts := acts + [Dirtier(0)];
    assert s10 == OneDirty();
  }

  lemma OneDirtyReachable()
    ensures Reachable(OneDirty()) && Typed(OneDirty())
  {
    hide Reachable, Exec;
    assert Exec(Nothing(), []) == Some(Nothing()) by { NoSteps(Nothing()); }
    assert Initial(Nothing());
    assert Reachable(Nothing()) by { InitialReachable(Nothing()); }
    ReachableHolds(Nothing());
    var a := DirtiesFirst();
  }

  lemma InitialReachable(s: State)
    requires Initial(s) && Exec(s, []) == Some(s)
    ensures Reachable(s)
  {
  }

  // ---- a written block that its set still lists ----

  /** The worker has added set 0 to both counters. */
  function Charged0(): State {
    State([Block(Some(0), true, Owed, false, 0),
           Block(None, false, Idle, false, 0),
           Block(None, false, Idle, false, 0),
           Block(None, false, Idle, false, 0)],
          [BlockSet([0], 1, 1, 1, None, true, true, Flying)],
          [Outside,
           Outside,
           Outside,
           Outside],
          Submitting(0, [0]), [], [], 1, 1, 1, 0)
  }

  lemma WorkerCharges() returns (acts: seq<Action>)
    requires Reachable(OneDirty()) && Typed(OneDirty())
    ensures Reachable(Charged0()) && Typed(Charged0()) && Exec(OneDirty(), acts) == Some(Charged0())
    ensures |acts| == 5 && acts[0] == Work
    ensures Uncompleted(acts)
  {
    hide Reachable, Exec, Typed;
    var s0 := OneDirty();
    acts := [];
    NoSteps(s0);
    var s1 := s0.(list := s0.list + Reverse(s0.llist), llist := [], worker := Picking);
    StepOn(s0, acts, s0, Work, s1);
    acts := acts + [Work];
    var s2 := s1.(sets := s1.sets[0 := s1.sets[0].(writeback := true)], worker := Testing(0));
    StepOn(s0, acts, s1, Work, s2);
    acts := acts + [Work];
    var s3 := s2.(sets := s2.sets[0 := s2.sets[0].(stage := Taken)],
                  list := s2.list[1..], worker := Charging(0));
    StepOn(s0, acts, s2, Work, s3);
    acts := acts + [Work];
    var s4 := s3.(sets := s3.sets[0 := s3.sets[0].(stage := Charged)],
                  blocks := Charge(s3.blocks, s3.sets[0].list), nrWriteback := s3.nrWriteback + s3.sets[0].size,
                  worker := Counting(0));
    StepOn(s0, acts, s3, Work, s4);
    acts := acts + [Work];
    var s5 := s4.(sets := s4.sets[0 := s4.sets[0].(submitted := s4.sets[0].submitted + s4.sets[0].size,
                                                     stage := Flying)],
                  worker := Submitting(0, s4.sets[0].list));
    StepOn(s0, acts, s4, Work, s5);
    acts := acts + [Work];
    assert s5 == Charged0();
  }

  /** The write of block 0 has completed, the worker has gone on, and set 0 still lists the block. */
  function Early(): State {
    State([Block(Some(0), true, Counted, false, 1),
           Block(None, false, Idle, false, 0),
           Block(None, false, Idle, false, 0),
           Block(None, false, Idle, false, 0)],
          [BlockSet([0], 1, 1, 1, None, true, true, Flying)],
          [Outside,
           Outside,
           Outside,
           Outside],
          Picking, [], [], 1, 0, 1, 1)
  }

  lemma WorkerSubmits() returns (acts: seq<Action>)
    requires Reachable(Charged0()) && Typed(Charged0())
    ensures Reachable(Early()) && Typed(Early()) && Exec(Charged0(), acts) == Some(Early())
    ensures |acts| == 4 && acts[0] == Work
  {
    hide Reachable, Exec, Typed;
    var s0 := Charged0();
    acts := [];
    NoSteps(s0);
    assert [0][1..] == [];
    var s1 := s0.(blocks := s0.blocks[0 := s0.blocks[0].(io := Queued)], worker := Submitting(0, []));
    StepOn(s0, acts, s0, Work, s1);
    acts := acts + [Work];
    var s2 := s1.(worker := Advancing(0));
    StepOn(s0, acts, s1, Work, s2);
    acts := acts + [Work];
    var s3 := s2.(writebackSeq := s2.writebackSeq + 1, worker := Picking);
    StepOn(s0, acts, s2, Work, s3);
    acts := acts + [Work];
    var s4 := s3.(blocks := s3.blocks[0 := s3.blocks[0].(io := Counted, writes := s3.blocks[0].writes + 1)],
                  nrWriteback := s3.nrWriteback - 1);
    StepOn(s0, acts, s3, Completes(0), s4);
    acts := acts + [Completes(0)];
    assert s4 == Early();
  }

  /** A reachable state in which sync's condition holds for number 1 while the set with that number
      still lists its block. */
  lemma EarlyReachable()
    ensures Reachable(Early()) && Typed(Early())
    ensures var s := Early();
            s.writebackSeq >= 1 && s.nrWriteback == 0 && s.sets[0].dirtySeq == 1 && 0 in s.sets[0].list
    ensures Numbered(Early(), 0, 1)
  {
    hide Reachable, Exec;
    OneDirtyReachable();
    var a := WorkerCharges();
    a := WorkerSubmits();
  }

  // ---- a sync that nobody wakes ----

  /** Thread 2 syncs, and the worker has begun to submit set 0. */
  function InFlight0(): State {
    State([Block(Some(0), true, Owed, false, 0),
           Block(None, false, Idle, false, 0),
           Block(None, false, Idle, false, 0),
           Block(None, false, Idle, false, 0)],
          [BlockSet([0], 1, 1, 1, None, true, true, Flying)],
          [Outside,
           Outside,
           Syncing(1),
           Outside],
          Submitting(0, [0]), [], [], 1, 1, 1, 0)
  }

  lemma SyncWaits() returns (acts: seq<Action>)
    requires Reachable(OneDirty()) && Typed(OneDirty())
    ensures Reachable(InFlight0()) && Typed(InFlight0()) && Exec(OneDirty(), acts) == Some(InFlight0())
    ensures |acts| == 6 && acts[0] == Sync(2)
    ensures Uncompleted(acts)
  {
    hide Reachable, Exec, Typed;
    var s0 := OneDirty();
    acts := [];
    NoSteps(s0);
    var s1 := Moved(s0, 2, Syncing(1));
    StepOn(s0, acts, s0, Sync(2), s1);
    acts := acts + [Sync(2)];
    var s2 := s1.(list := s1.list + Reverse(s1.llist), llist := [], worker := Picking);
    StepOn(s0, acts, s1, Work, s2);
    acts := acts + [Work];
    var s3 := s2.(sets := s2.sets[0 := s2.sets[0].(writeback := true)], worker := Testing(0));
    StepOn(s0, acts, s2, Work, s3);
    acts := acts + [Work];
    var s4 := s3.(sets := s3.sets[0 := s3.sets[0].(stage := Taken)],
                  list := s3.list[1..], worker := Charging(0));
    StepOn(s0, acts, s3, Work, s4);
    acts := acts + [Work];
    var s5 := s4.(sets := s4.sets[0 := s4.sets[0].(stage := Charged)],
                  blocks := Charge(s4.blocks, s4.sets[0].list), nrWriteback := s4.nrWriteback + s4.sets[0].size,
                  worker := Counting(0));
    StepOn(s0, acts, s4, Work, s5);
    acts := acts + [Work];
    var s6 := s5.(sets := s5.sets[0 := s5.sets[0].(submitted := s5.sets[0].submitted + s5.sets[0].size,
                                                     stage := Flying)],
                  worker := Submitting(0, s5.sets[0].list));
    StepOn(s0, acts, s5, Work, s6);
    acts := acts + [Work];
    assert s6 == InFlight0();
  }

  /** Its block is written; the worker is still at the set. */
  function Completed0(): State {
    State([Block(Some(0), true, Finished, false, 1),
           Block(None, false, Idle, false, 0),
           Block(None, false, Idle, false, 0),
           Block(None, false, Idle, false, 0)],
          [BlockSet([0], 1, 0, 1, None, true, true, Finishing)],
          [Outside,
           Outside,
           Syncing(1),
           Outside],
          Submitting(0, []), [], [], 1, 0, 1, 0)
  }

  lemma LastCompletes() returns (acts: seq<Action>)
    requires Reachable(InFlight0()) && Typed(InFlight0())
    ensures Reachable(Completed0()) && Typed(Completed0()) && Exec(InFlight0(), acts) == Some(Completed0())
    ensures |acts| == 3 && acts[0] == Work
  {
    hide Reachable, Exec, Typed;
    var s0 := InFlight0();
    acts := [];
    NoSteps(s0);
    assert [0][1..] == [];
    var s1 := s0.(blocks := s0.blocks[0 := s0.blocks[0].(io := Queued)], worker := Submitting(0, []));
    StepOn(s0, acts, s0, Work, s1);
    acts := acts + [Work];
    var s2 := s1.(blocks := s1.blocks[0 := s1.blocks[0].(io := Counted, writes := s1.blocks[0].writes + 1)],
                  nrWriteback := s1.nrWriteback - 1);
    StepOn(s0, acts, s1, Completes(0), s2);
    acts := acts + [Completes(0)];
    var s3 := s2.(blocks := s2.blocks[0 := s2.blocks[0].(io := Finished)],
                  sets := s2.sets[0 := s2.sets[0].(submitted := 0, stage := Finishing)]);
    StepOn(s0, acts, s2, Drops(0), s3);
    acts := acts + [Drops(0)];
    assert s3 == Completed0();
  }

  /** The set has let its block go. */
  function LetGo(): State {
    State([Block(None, false, Idle, false, 1),
           Block(None, false, Idle, false, 0),
           Block(None, false, Idle, false, 0),
           Block(None, false, Idle, false, 0)],
          [BlockSet([], 0, 0, 1, None, true, true, Releasing)],
          [Outside,
           Outside,
           Syncing(1),
           Outside],
          Submitting(0, []), [], [], 0, 0, 1, 0)
  }

  lemma LastReleases() returns (acts: seq<Action>)
    requires Reachable(Completed0()) && Typed(Completed0())
    ensures Reachable(LetGo()) && Typed(LetGo()) && Exec(Completed0(), acts) == Some(LetGo())
    ensures |acts| == 2 && acts[0] == Retires(0)
    ensures Uncompleted(acts)
  {
    hide Reachable, Exec, Typed;
    var s0 := Completed0();
    acts := [];
    NoSteps(s0);
    var s1 := s0.(sets := s0.sets[0 := s0.sets[0].(size := 0, stage := Releasing)],
                  blocks := Debit(s0.blocks, s0.sets[0].list), nrDirty := s0.nrDirty - s0.sets[0].size);
    StepOn(s0, acts, s0, Retires(0), s1);
    acts := acts + [Retires(0)];
    assert [0][1..] == [];
    var s2 := s1.(blocks := s1.blocks[0 := s1.blocks[0].(owner := None, dirty := false, io := Idle, debited := false)],
                  sets := s1.sets[0 := s1.sets[0].(list := [])]);
    StepOn(s0, acts, s1, Retires(0), s2);
    acts := acts + [Retires(0)];
    assert s2.sets[0].list == [];
    assert s2.blocks == LetGo().blocks && s2.sets == LetGo().sets;
    assert s2 == LetGo();
  }

  /** The last completion is done and has woken the sync. */
  function Woken(): State {
    State([Block(None, false, Idle, false, 1),
           Block(None, false, Idle, false, 0),
           Block(None, false, Idle, false, 0),
           Block(None, false, Idle, false, 0)],
          [BlockSet([], 0, 0, 1, None, true, false, Done)],
          [Outside,
           Outside,
           Syncing(1),
           Outside],
          Submitting(0, []), [], [], 0, 0, 1, 0)
  }

  lemma CompletionWakes() returns (acts: seq<Action>)
    requires Reachable(LetGo()) && Typed(LetGo())
    ensures Reachable(Woken()) && Typed(Woken()) && Exec(LetGo(), acts) == Some(Woken())
    ensures |acts| == 1 && acts[0] == Retires(0)
    ensures Uncompleted(acts)
  {
    hide Reachable, Exec, Typed;
    var s0 := LetGo();
    acts := [];
    NoSteps(s0);
    var s1 := s0.(sets := s0.sets[0 := s0.sets[0].(writeback := false, stage := Done)]);
    StepOn(s0, acts, s0, Retires(0), s1);
    acts := acts + [Retires(0)];
    assert s1 == Woken();
  }

  /** The worker has raised writeback_seq and rests. */
  function SleepsOn(): State {
    State([Block(None, false, Idle, false, 1),
           Block(None, false, Idle, false, 0),
           Block(None, false, Idle, false, 0),
           Block(None, false, Idle, false, 0)],
          [BlockSet([], 0, 0, 1, None, true, false, Done)],
          [Outside,
           Outside,
           Syncing(1),
           Outside],
          Resting, [], [], 0, 0, 1, 1)
  }

  lemma WorkerMovesOn() returns (acts: seq<Action>)
    requires Reachable(Woken()) && Typed(Woken())
    ensures Reachable(SleepsOn()) && Typed(SleepsOn()) && Exec(Woken(), acts) == Some(SleepsOn())
    ensures acts == [Work, Work, Work]
  {
    hide Reachable, Exec, Typed;
    var s0 := Woken();
    acts := [];
    NoSteps(s0);
    var s1 := s0.(worker := Advancing(0));
    StepOn(s0, acts, s0, Work, s1);
    acts := acts + [Work];
    var s2 := s1.(writebackSeq := s1.writebackSeq + 1, worker := Picking);
    StepOn(s0, acts, s1, Work, s2);
    acts := acts + [Work];
    var s3 := s2.(worker := Resting);
    StepOn(s0, acts, s2, Work, s3);
    acts := acts + [Work];
    assert s3 == SleepsOn();
  }

  /** A sync that nobody wakes: when the only completion that wakes it has done so the number it waits for is
      not reached, when the worker reaches it nobody wakes it, and then its condition is true, no block is
      dirty, and no run without a dirtying call wakes it. */
  lemma SyncSleepsOn(acts: seq<Action>)
    requires Exec(SleepsOn(), acts).Some? && NoCalls(acts)
    ensures Reachable(LetGo()) && Typed(LetGo()) && Wakes(LetGo(), Retires(0)) && Next(LetGo(), Retires(0)) == Some(Woken())
    ensures Woken().threads[2] == Syncing(1) && !Met(Woken(), 1) && !WakePending(Woken())
    ensures Exec(Woken(), [Work, Work, Work]) == Some(SleepsOn())
    ensures SleepsOn().threads[2] == Syncing(1) && Met(SleepsOn(), 1) && !SleepsOn().blocks[0].dirty
    ensures !WakesIn(SleepsOn(), acts)
  {
    hide Reachable, Exec, Inv, Typed, Next, Wakes, Met, WakePending, Still;
    OneDirtyReachable();
    var a := SyncWaits();
    a := LastCompletes();
    a := LastReleases();
    a := CompletionWakes();
    LetGoWakes(a);
    WokenWaits();
    a := WorkerMovesOn();
    SleeperIsMet();
    ReachableHolds(SleepsOn());
    NobodyWakes(SleepsOn(), acts);
  }

  lemma LetGoWakes(acts: seq<Action>)
    requires Typed(LetGo()) && Exec(LetGo(), acts) == Some(Woken()) && |acts| == 1 && acts[0] == Retires(0)
    ensures Wakes(LetGo(), Retires(0)) && Next(LetGo(), Retires(0)) == Some(Woken())
  {
    hide Next, Typed;
    assert acts[1..] == [];
    assert Exec(Next(LetGo(), Retires(0)).value, []) == Some(Next(LetGo(), Retires(0)).value);
  }

  lemma WokenWaits()
    ensures Woken().threads[2] == Syncing(1) && !Met(Woken(), 1) && !WakePending(Woken())
  {
  }

  lemma SleeperIsMet()
    ensures SleepsOn().threads[2] == Syncing(1) && Met(SleepsOn(), 1) && !SleepsOn().blocks[0].dirty && Still(SleepsOn())
  {
  }

  // ---- a sync that misses a block ----

  /** Thread 2 syncs up to number 1, thread 3 has read the set of block 0, thread 1 has made set 1 of block 1. */
  function Second(): State {
    State([Block(Some(0), true, Idle, false, 0),
           Block(Some(1), false, Idle, false, 0),
           Block(None, false, Idle, false, 0),
           Block(None, false, Idle, false, 0)],
          [BlockSet([0], 1, 0, 1, None, true, false, Pending),
           BlockSet([1], 1, 0, 0, None, false, false, Open)],
          [Outside,
           Lock([1], 0, None, 1),
           Syncing(1),
           Lock([0], 0, None, 0)],
          Resting, [0], [], 1, 0, 1, 0)
  }

  lemma SyncBegins() returns (acts: seq<Action>)
    requires Reachable(OneDirty()) && Typed(OneDirty())
    ensures Reachable(Second()) && Typed(Second()) && Exec(OneDirty(), acts) == Some(Second())
    ensures |acts| == 5 && acts[0] == Sync(2)
    ensures Uncompleted(acts)
  {
    hide Reachable, Exec, Typed;
    var s0 := OneDirty();
    acts := [];
    NoSteps(s0);
    var s1 := Moved(s0, 2, Syncing(1));
    StepOn(s0, acts, s0, Sync(2), s1);
    acts := acts + [Sync(2)];
    var s2 := Moved(s1, 3, Loop([0], 0, None));
    StepOn(s0, acts, s1, Begin(3, [0]), s2);
    acts := acts + [Begin(3, [0])];
    var s3 := Moved(s2, 3, Lock([0], 0, None, 0));
    StepOn(s0, acts, s2, Dirtier(3), s3);
    acts := acts + [Dirtier(3)];
    var s4 := Moved(s3, 1, Loop([1], 0, None));
    StepOn(s0, acts, s3, Begin(1, [1]), s4);
    acts := acts + [Begin(1, [1])];
    var s5 := Moved(s4, 1, Lock([1], 0, None, 1)).(
      blocks := s4.blocks[1 := s4.blocks[1].(owner := Some(1))],
      sets := s4.sets + [BlockSet([1], 1, 0, 0, None, false, false, Open)]);
    StepOn(s0, acts, s4, Dirtier(1), s5);
    acts := acts + [Dirtier(1)];
    assert s5 == Second();
  }

  /** Block 1 is dirty in set 1, which carries number 2. */
  function TwoDirty(): State {
    State([Block(Some(0), true, Idle, false, 0),
           Block(Some(1), true, Idle, false, 0),
           Block(None, false, Idle, false, 0),
           Block(None, false, Idle, false, 0)],
          [BlockSet([0], 1, 0, 1, None, true, false, Pending),
           BlockSet([1], 1, 0, 2, None, true, false, Pending)],
          [Outside,
           Outside,
           Syncing(1),
           Lock([0], 0, None, 0)],
          Resting, [1, 0], [], 2, 0, 2, 0)
  }

  lemma DirtiesSecond() returns (acts: seq<Action>)
    requires Reachable(Second()) && Typed(Second())
    ensures Reachable(TwoDirty()) && Typed(TwoDirty()) && Exec(Second(), acts) == Some(TwoDirty())
    ensures |acts| == 8 && acts[0] == Dirtier(1)
    ensures Uncompleted(acts)
  {
    hide Reachable, Exec, Typed;
    var s0 := Second();
    acts := [];
    NoSteps(s0);
    var s1 := Moved(s0, 1, Locked([1], 0, None, 1)).(sets := s0.sets[1 := s0.sets[1].(dirtying := Some(1))]);
    StepOn(s0, acts, s0, Dirtier(1), s1);
    acts := acts + [Dirtier(1)];
    var s2 := Moved(s1, 1, Tested([1], 0, None, 1));
    StepOn(s0, acts, s1, Dirtier(1), s2);
    acts := acts + [Dirtier(1)];
    var s3 := Moved(s2, 1, Loop([1], 1, Some(1)));
    StepOn(s0, acts, s2, Dirtier(1), s3);
    acts := acts + [Dirtier(1)];
    var s4 := Moved(s3, 1, Mark([1], 1, 1));
    StepOn(s0, acts, s3, Dirtier(1), s4);
    acts := acts + [Dirtier(1)];
    var s5 := Moved(s4, 1, Mark([1], 1, 0)).(
      blocks := s4.blocks[1 := s4.blocks[1].(dirty := true)], nrDirty := s4.nrDirty + 1);
    StepOn(s0, acts, s4, Dirtier(1), s5);
    acts := acts + [Dirtier(1)];
    var s6 := Moved(s5, 1, Commit([1], 1));
    StepOn(s0, acts, s5, Dirtier(1), s6);
    acts := acts + [Dirtier(1)];
    var s7 := Moved(s6, 1, Modify([1], 1)).(
      sets := s6.sets[1 := s6.sets[1].(dirty := true, dirtySeq := s6.dirtySeq + 1, stage := Pending)],
      dirtySeq := s6.dirtySeq + 1, llist := [1] + s6.llist);
    StepOn(s0, acts, s6, Dirtier(1), s7);
    acts := acts + [Dirtier(1)];
    var s8 := Moved(s7, 1, Outside).(sets := s7.sets[1 := s7.sets[1].(dirtying := None)]);
    StepOn(s0, acts, s7, Dirtier(1), s8);
    acts := acts + [Dirtier(1)];
    assert s8 == TwoDirty();
  }

  /** Thread 1 wants blocks 1 and 0 and holds set 1. */
  function HoldsOne(): State {
    State([Block(Some(0), true, Idle, false, 0),
           Block(Some(1), true, Idle, false, 0),
           Block(None, false, Idle, false, 0),
           Block(None, false, Idle, false, 0)],
          [BlockSet([0], 1, 0, 1, None, true, false, Pending),
           BlockSet([1], 1, 0, 2, Some(1), true, false, Pending)],
          [Outside,
           Loop([1, 0], 1, Some(1)),
           Syncing(1),
           Lock([0], 0, None, 0)],
          Resting, [1, 0], [], 2, 0, 2, 0)
  }

  lemma LocksOne() returns (acts: seq<Action>)
    requires Reachable(TwoDirty()) && Typed(TwoDirty())
    ensures Reachable(HoldsOne()) && Typed(HoldsOne()) && Exec(TwoDirty(), acts) == Some(HoldsOne())
    ensures |acts| == 5 && acts[0] == Begin(1, [1, 0])
    ensures Uncompleted(acts)
  {
    hide Reachable, Exec, Typed;
    var s0 := TwoDirty();
    acts := [];
    NoSteps(s0);
    var s1 := Moved(s0, 1, Loop([1, 0], 0, None));
    StepOn(s0, acts, s0, Begin(1, [1, 0]), s1);
    acts := acts + [Begin(1, [1, 0])];
    var s2 := Moved(s1, 1, Lock([1, 0], 0, None, 1));
    StepOn(s0, acts, s1, Dirtier(1), s2);
    acts := acts + [Dirtier(1)];
    var s3 := Moved(s2, 1, Locked([1, 0], 0, None, 1)).(sets := s2.sets[1 := s2.sets[1].(dirtying := Some(1))]);
    StepOn(s0, acts, s2, Dirtier(1), s3);
    acts := acts + [Dirtier(1)];
    var s4 := Moved(s3, 1, Tested([1, 0], 0, None, 1));
    StepOn(s0, acts, s3, Dirtier(1), s4);
    acts := acts + [Dirtier(1)];
    var s5 := Moved(s4, 1, Loop([1, 0], 1, Some(1)));
    StepOn(s0, acts, s4, Dirtier(1), s5);
    acts := acts + [Dirtier(1)];
    assert s5 == HoldsOne();
  }

  /** Thread 1 holds both sets. */
  function Joining(): State {
    State([Block(Some(0), true, Idle, false, 0),
           Block(Some(1), true, Idle, false, 0),
           Block(None, false, Idle, false, 0),
           Block(None, false, Idle, false, 0)],
          [BlockSet([0], 1, 0, 1, Some(1), true, false, Pending),
           BlockSet([1], 1, 0, 2, Some(1), true, false, Pending)],
          [Outside,
           Both([1, 0], 1, 1, 0),
           Syncing(1),
           Lock([0], 0, None, 0)],
          Resting, [1, 0], [], 2, 0, 2, 0)
  }

  lemma LocksBoth() returns (acts: seq<Action>)
    requires Reachable(HoldsOne()) && Typed(HoldsOne())
    ensures Reachable(Joining()) && Typed(Joining()) && Exec(HoldsOne(), acts) == Some(Joining())
    ensures |acts| == 4 && acts[0] == Dirtier(1)
    ensures Uncompleted(acts)
  {
    hide Reachable, Exec, Typed;
    var s0 := HoldsOne();
    acts := [];
    NoSteps(s0);
    var s1 := Moved(s0, 1, Lock([1, 0], 1, Some(1), 0));
    StepOn(s0, acts, s0, Dirtier(1), s1);
    acts := acts + [Dirtier(1)];
    var s2 := Moved(s1, 1, Locked([1, 0], 1, Some(1), 0)).(sets := s1.sets[0 := s1.sets[0].(dirtying := Some(1))]);
    StepOn(s0, acts, s1, Dirtier(1), s2);
    acts := acts + [Dirtier(1)];
    var s3 := Moved(s2, 1, Tested([1, 0], 1, Some(1), 0));
    StepOn(s0, acts, s2, Dirtier(1), s3);
    acts := acts + [Dirtier(1)];
    var s4 := Moved(s3, 1, Both([1, 0], 1, 1, 0));
    StepOn(s0, acts, s3, Dirtier(1), s4);
    acts := acts + [Dirtier(1)];
    assert s4 == Joining();
  }

  /** Block 0 has moved to set 1; set 0 is empty and still queued. */
  function Moved0(): State {
    State([Block(Some(1), true, Idle, false, 0),
           Block(Some(1), true, Idle, false, 0),
           Block(None, false, Idle, false, 0),
           Block(None, false, Idle, false, 0)],
          [BlockSet([], 0, 0, 1, Some(1), false, false, Pending),
           BlockSet([1, 0], 2, 0, 2, Some(1), true, false, Pending)],
          [Outside,
           Merged([1, 0], 1, 1, 0),
           Syncing(1),
           Lock([0], 0, None, 0)],
          Resting, [1, 0], [], 2, 0, 2, 0)
  }

  lemma Joins() returns (acts: seq<Action>)
    requires Reachable(Joining()) && Typed(Joining())
    ensures Reachable(Moved0()) && Typed(Moved0()) && Exec(Joining(), acts) == Some(Moved0())
    ensures |acts| == 1 && acts[0] == Dirtier(1)
    ensures Uncompleted(acts)
  {
    hide Reachable, Exec, Typed;
    var s0 := Joining();
    acts := [];
    NoSteps(s0);
    assert Front([1], s0.blocks) == 1 && Front([0], s0.blocks) == 1;
    var s1 := MergedState(s0, 1, s0.threads[1], 0, 1);
    StepOn(s0, acts, s0, Dirtier(1), s1);
    acts := acts + [Dirtier(1)];
    assert s1.sets[0].list == [];
    assert s1.sets[1].list == [1, 0];
    assert s1.blocks == Moved0().blocks && s1.sets == Moved0().sets;
    assert s1 == Moved0();
  }

  /** The worker is at set 0, which has no blocks. */
  function Emptied(): State {
    State([Block(Some(1), true, Idle, false, 0),
           Block(Some(1), true, Idle, false, 0),
           Block(None, false, Idle, false, 0),
           Block(None, false, Idle, false, 0)],
          [BlockSet([], 0, 0, 1, None, false, true, Taken),
           BlockSet([1, 0], 2, 0, 2, Some(1), true, false, Pending)],
          [Outside,
           Loop([1, 0], 2, Some(1)),
           Syncing(1),
           Lock([0], 0, None, 0)],
          Charging(0), [], [1], 2, 0, 2, 0)
  }

  lemma WorkerTakesEmpty() returns (acts: seq<Action>)
    requires Reachable(Moved0()) && Typed(Moved0())
    ensures Reachable(Emptied()) && Typed(Emptied()) && Exec(Moved0(), acts) == Some(Emptied())
    ensures |acts| == 4 && acts[0] == Dirtier(1)
    ensures Uncompleted(acts)
  {
    hide Reachable, Exec, Typed;
    var s0 := Moved0();
    acts := [];
    NoSteps(s0);
    var s1 := Moved(s0, 1, Loop([1, 0], 2, Some(1))).(sets := s0.sets[0 := s0.sets[0].(dirtying := None)]);
    StepOn(s0, acts, s0, Dirtier(1), s1);
    acts := acts + [Dirtier(1)];
    var s2 := s1.(list := s1.list + Reverse(s1.llist), llist := [], worker := Picking);
    StepOn(s0, acts, s1, Work, s2);
    acts := acts + [Work];
    var s3 := s2.(sets := s2.sets[0 := s2.sets[0].(writeback := true)], worker := Testing(0));
    StepOn(s0, acts, s2, Work, s3);
    acts := acts + [Work];
    var s4 := s3.(sets := s3.sets[0 := s3.sets[0].(stage := Taken)],
                  list := s3.list[1..], worker := Charging(0));
    StepOn(s0, acts, s3, Work, s4);
    acts := acts + [Work];
    assert s4 == Emptied();
  }

  /** The worker is past number 1, thread 2 has seen that, and nothing is in writeback. */
  function Missed(): State {
    State([Block(Some(1), true, Idle, false, 0),
           Block(Some(1), true, Idle, false, 0),
           Block(None, false, Idle, false, 0),
           Block(None, false, Idle, false, 0)],
          [BlockSet([], 0, 0, 1, None, false, true, Dead),
           BlockSet([1, 0], 2, 0, 2, Some(1), true, false, Pending)],
          [Outside,
           Loop([1, 0], 2, Some(1)),
           SeenSeq(1),
           Lock([0], 0, None, 0)],
          Picking, [], [1], 2, 0, 2, 1)
  }

  lemma SyncSees() returns (acts: seq<Action>)
    requires Reachable(Emptied()) && Typed(Emptied())
    ensures Reachable(Missed()) && Typed(Missed()) && Exec(Emptied(), acts) == Some(Missed())
    ensures |acts| == 3 && acts[0] == Work
    ensures Uncompleted(acts)
  {
    hide Reachable, Exec, Typed;
    var s0 := Emptied();
    acts := [];
    NoSteps(s0);
    var s1 := s0.(sets := s0.sets[0 := s0.sets[0].(stage := Dead)], worker := Advancing(0));
    StepOn(s0, acts, s0, Work, s1);
    acts := acts + [Work];
    var s2 := s1.(writebackSeq := s1.writebackSeq + 1, worker := Picking);
    StepOn(s0, acts, s1, Work, s2);
    acts := acts + [Work];
    var s3 := Moved(s2, 2, SeenSeq(1));
    StepOn(s0, acts, s2, Sync(2), s3);
    acts := acts + [Sync(2)];
    assert s3 == Missed();
  }

  /** The sync's run, from the state in which block 0 was dirty to the one in which it returns. */
  lemma MissedRun() returns (acts: seq<Action>)
    ensures Reachable(OneDirty()) && Reachable(Emptied()) && Reachable(Missed()) && Typed(Missed())
    ensures Exec(OneDirty(), acts) == Some(Missed())
    ensures acts != [] && acts[0] == Sync(2) && Uncompleted(acts)
  {
    hide Reachable, Exec;
    OneDirtyReachable();
    acts := SyncBegins();
    var more;
    more := DirtiesSecond();
    ExecConcat(OneDirty(), acts, Second(), more, TwoDirty());
    acts := acts + more;
    more := LocksOne();
    ExecConcat(OneDirty(), acts, TwoDirty(), more, HoldsOne());
    acts := acts + more;
    more := LocksBoth();
    ExecConcat(OneDirty(), acts, HoldsOne(), more, Joining());
    acts := acts + more;
    more := Joins();
    ExecConcat(OneDirty(), acts, Joining(), more, Moved0());
    acts := acts + more;
    more := WorkerTakesEmpty();
    ExecConcat(OneDirty(), acts, Moved0(), more, Emptied());
    acts := acts + more;
    more := SyncSees();
    ExecConcat(OneDirty(), acts, Emptied(), more, Missed());
    acts := acts + more;
  }

  /** A sync that misses a block: block 0 is dirty when thread 2 begins to sync, in a set that carries
      a number up to the one the sync waits for, and it is still dirty and not once written when the
      thread's next step returns success. */
  lemma SyncMissesBlock() returns (acts: seq<Action>)
    ensures Reachable(OneDirty()) && Exec(OneDirty(), acts) == Some(Missed())
    ensures acts != [] && acts[0] == Sync(2) && Completes(0) !in acts
    ensures var s := OneDirty();
            && s.threads[2] == Outside && s.blocks[0].dirty && Unwritten(s.blocks[0]) && Numbered(s, 0, s.dirtySeq)
    ensures var r := Missed();
            && SyncStep(r, 2).Some? && SyncStep(r, 2).value.threads[2] == Outside
            && r.blocks[0].dirty && r.blocks[0].writes == OneDirty().blocks[0].writes
    ensures MergedPast(OneDirty(), acts, 0, OneDirty().dirtySeq)
  {
    hide Reachable, Exec, MergedPast;
    acts := MissedRun();
    SyncMissesIff(OneDirty(), 2, acts, Missed(), 0);
  }

  // ---- a thread that waits for good ----

  /** Thread 3, which read the set of block 0 before the merge, waits for WRITEBACK on the emptied set. */
  function Stuck(): State {
    State([Block(Some(1), true, Idle, false, 0),
           Block(Some(1), true, Idle, false, 0),
           Block(None, false, Idle, false, 0),
           Block(None, false, Idle, false, 0)],
          [BlockSet([], 0, 0, 1, None, false, true, Dead),
           BlockSet([1, 0], 2, 0, 2, Some(1), true, false, Pending)],
          [Outside,
           Loop([1, 0], 2, Some(1)),
           SeenSeq(1),
           Wait([0], ForWriteback(0))],
          Picking, [], [1], 2, 0, 2, 1)
  }

  lemma ReaderBacksOff() returns (acts: seq<Action>)
    requires Reachable(Missed()) && Typed(Missed())
    ensures Reachable(Stuck()) && Typed(Stuck()) && Exec(Missed(), acts) == Some(Stuck())
    ensures |acts| == 4 && acts[0] == Dirtier(3)
    ensures Uncompleted(acts)
  {
    hide Reachable, Exec, Typed;
    var s0 := Missed();
    acts := [];
    NoSteps(s0);
    var s1 := Moved(s0, 3, Locked([0], 0, None, 0)).(sets := s0.sets[0 := s0.sets[0].(dirtying := Some(3))]);
    StepOn(s0, acts, s0, Dirtier(3), s1);
    acts := acts + [Dirtier(3)];
    assert [0] + [] == [0];
    var s2 := Moved(s1, 3, Release([0], [0], ForWriteback(0)));
    StepOn(s0, acts, s1, Dirtier(3), s2);
    acts := acts + [Dirtier(3)];
    assert [0][1..] == [];
    var s3 := Moved(s2, 3, Release([0], [], ForWriteback(0))).(sets := s2.sets[0 := s2.sets[0].(dirtying := None)]);
    StepOn(s0, acts, s2, Dirtier(3), s3);
    acts := acts + [Dirtier(3)];
    var s4 := Moved(s3, 3, Wait([0], ForWriteback(0)));
    StepOn(s0, acts, s3, Dirtier(3), s4);
    acts := acts + [Dirtier(3)];
    assert s4 == Stuck();
  }

  /** The state with the worker at an empty set is reachable, and so is one with a thread that waits on
      that set; from there on the thread never gets any further. */
  lemma StuckForGood(acts: seq<Action>, r: State)
    requires Exec(Stuck(), acts) == Some(r)
    ensures Reachable(Emptied()) && Emptied().worker == Charging(0) && Emptied().sets[0].size == 0
    ensures Reachable(Stuck()) && Stuck().threads[3] == Wait([0], ForWriteback(0))
    ensures 3 < |r.threads| && r.threads[3] == Stuck().threads[3] && Typed(r) && Next(r, Dirtier(3)) == None
  {
    hide Reachable, Exec, Next, Typed;
    var a := MissedRun();
    a := ReaderBacksOff();
    WaiterNeverResumes(Stuck(), acts, r, 3, 0);
  }

  // ---- a merge by size that loses a queued set ----

  /** Thread 3 holds set 1 of block 3. */
  function Other(): State {
    State([Block(Some(0), true, Idle, false, 0),
           Block(None, false, Idle, false, 0),
           Block(None, false, Idle, false, 0),
           Block(Some(1), false, Idle, false, 0)],
          [BlockSet([0], 1, 0, 1, None, true, false, Pending),
           BlockSet([3], 1, 0, 0, Some(3), false, false, Open)],
          [Outside,
           Outside,
           Outside,
           Locked([3], 0, None, 1)],
          Resting, [0], [], 1, 0, 1, 0)
  }

  lemma LocksOther() returns (acts: seq<Action>)
    requires Reachable(OneDirty()) && Typed(OneDirty())
    ensures Reachable(Other()) && Typed(Other()) && Exec(OneDirty(), acts) == Some(Other())
    ensures |acts| == 3 && acts[0] == Begin(3, [3])
    ensures Uncompleted(acts)
  {
    hide Reachable, Exec, Typed;
    var s0 := OneDirty();
    acts := [];
    NoSteps(s0);
    var s1 := Moved(s0, 3, Loop([3], 0, None));
    StepOn(s0, acts, s0, Begin(3, [3]), s1);
    acts := acts + [Begin(3, [3])];
    var s2 := Moved(s1, 3, Lock([3], 0, None, 1)).(
      blocks := s1.blocks[3 := s1.blocks[3].(owner := Some(1))],
      sets := s1.sets + [BlockSet([3], 1, 0, 0, None, false, false, Open)]);
    StepOn(s0, acts, s1, Dirtier(3), s2);
    acts := acts + [Dirtier(3)];
    var s3 := Moved(s2, 3, Locked([3], 0, None, 1)).(sets := s2.sets[1 := s2.sets[1].(dirtying := Some(3))]);
    StepOn(s0, acts, s2, Dirtier(3), s3);
    acts := acts + [Dirtier(3)];
    assert s3 == Other();
  }

  /** Thread 1 holds set 2 of the clean blocks 1 and 2. */
  function Clean2(): State {
    State([Block(Some(0), true, Idle, false, 0),
           Block(Some(2), false, Idle, false, 0),
           Block(Some(2), false, Idle, false, 0),
           Block(Some(1), false, Idle, false, 0)],
          [BlockSet([0], 1, 0, 1, None, true, false, Pending),
           BlockSet([3], 1, 0, 0, Some(3), false, false, Open),
           BlockSet([1, 2], 2, 0, 0, Some(1), false, false, Open)],
          [Outside,
           Loop([1, 2, 0, 3], 2, Some(2)),
           Outside,
           Locked([3], 0, None, 1)],
          Resting, [0], [], 1, 0, 1, 0)
  }

  lemma AddsClean() returns (acts: seq<Action>)
    requires Reachable(Other()) && Typed(Other())
    ensures Reachable(Clean2()) && Typed(Clean2()) && Exec(Other(), acts) == Some(Clean2())
    ensures |acts| == 6 && acts[0] == Begin(1, [1, 2, 0, 3])
    ensures Uncompleted(acts)
  {
    hide Reachable, Exec, Typed;
    var s0 := Other();
    acts := [];
    NoSteps(s0);
    var s1 := Moved(s0, 1, Loop([1, 2, 0, 3], 0, None));
    StepOn(s0, acts, s0, Begin(1, [1, 2, 0, 3]), s1);
    acts := acts + [Begin(1, [1, 2, 0, 3])];
    var s2 := Moved(s1, 1, Lock([1, 2, 0, 3], 0, None, 2)).(
      blocks := s1.blocks[1 := s1.blocks[1].(owner := Some(2))],
      sets := s1.sets + [BlockSet([1], 1, 0, 0, None, false, false, Open)]);
    StepOn(s0, acts, s1, Dirtier(1), s2);
    acts := acts + [Dirtier(1)];
    var s3 := Moved(s2, 1, Locked([1, 2, 0, 3], 0, None, 2)).(sets := s2.sets[2 := s2.sets[2].(dirtying := Some(1))]);
    StepOn(s0, acts, s2, Dirtier(1), s3);
    acts := acts + [Dirtier(1)];
    var s4 := Moved(s3, 1, Tested([1, 2, 0, 3], 0, None, 2));
    StepOn(s0, acts, s3, Dirtier(1), s4);
    acts := acts + [Dirtier(1)];
    var s5 := Moved(s4, 1, Loop([1, 2, 0, 3], 1, Some(2)));
    StepOn(s0, acts, s4, Dirtier(1), s5);
    acts := acts + [Dirtier(1)];
    var s6 := Moved(s5, 1, Loop([1, 2, 0, 3], 2, Some(2))).(
      blocks := s5.blocks[2 := s5.blocks[2].(owner := Some(2))],
      sets := s5.sets[2 := s5.sets[2].(list := s5.sets[2].list + [2], size := s5.sets[2].size + 1)]);
    StepOn(s0, acts, s5, Dirtier(1), s6);
    acts := acts + [Dirtier(1)];
    assert s6.sets[2].list == [1, 2];
    assert s6.blocks == Clean2().blocks && s6.sets == Clean2().sets;
    assert s6 == Clean2();
  }

  /** Thread 1 also holds set 0, the queued set of the dirty block 0. */
  function Uneven(): State {
    State([Block(Some(0), true, Idle, false, 0),
           Block(Some(2), false, Idle, false, 0),
           Block(Some(2), false, Idle, false, 0),
           Block(Some(1), false, Idle, false, 0)],
          [BlockSet([0], 1, 0, 1, Some(1), true, false, Pending),
           BlockSet([3], 1, 0, 0, Some(3), false, false, Open),
           BlockSet([1, 2], 2, 0, 0, Some(1), false, false, Open)],
          [Outside,
           Both([1, 2, 0, 3], 2, 2, 0),
           Outside,
           Locked([3], 0, None, 1)],
          Resting, [0], [], 1, 0, 1, 0)
  }

  lemma LocksDirty() returns (acts: seq<Action>)
    requires Reachable(Clean2()) && Typed(Clean2())
    ensures Reachable(Uneven()) && Typed(Uneven()) && Exec(Clean2(), acts) == Some(Uneven())
    ensures |acts| == 4 && acts[0] == Dirtier(1)
    ensures Uncompleted(acts)
  {
    hide Reachable, Exec, Typed;
    var s0 := Clean2();
    acts := [];
    NoSteps(s0);
    var s1 := Moved(s0, 1, Lock([1, 2, 0, 3], 2, Some(2), 0));
    StepOn(s0, acts, s0, Dirtier(1), s1);
    acts := acts + [Dirtier(1)];
    var s2 := Moved(s1, 1, Locked([1, 2, 0, 3], 2, Some(2), 0)).(sets := s1.sets[0 := s1.sets[0].(dirtying := Some(1))]);
    StepOn(s0, acts, s1, Dirtier(1), s2);
    acts := acts + [Dirtier(1)];
    var s3 := Moved(s2, 1, Tested([1, 2, 0, 3], 2, Some(2), 0));
    StepOn(s0, acts, s2, Dirtier(1), s3);
    acts := acts + [Dirtier(1)];
    var s4 := Moved(s3, 1, Both([1, 2, 0, 3], 2, 2, 0));
    StepOn(s0, acts, s3, Dirtier(1), s4);
    acts := acts + [Dirtier(1)];
    assert s4 == Uneven();
  }

  /** The merge as written has kept the larger set 2, which is not queued. */
  function Absorbed(): State {
    State([Block(Some(2), true, Idle, false, 0),
           Block(Some(2), false, Idle, false, 0),
           Block(Some(2), false, Idle, false, 0),
           Block(Some(1), false, Idle, false, 0)],
          [BlockSet([], 0, 0, 1, Some(1), false, false, Pending),
           BlockSet([3], 1, 0, 0, Some(3), false, false, Open),
           BlockSet([0, 1, 2], 3, 0, 0, Some(1), false, false, Open)],
          [Outside,
           Merged([1, 2, 0, 3], 2, 2, 0),
           Outside,
           Locked([3], 0, None, 1)],
          Resting, [0], [], 1, 0, 1, 0)
  }

  lemma AbsorbedIsCode()
    ensures Reachable(Uneven()) && Typed(Uneven()) && Uneven().threads[1].Both?
    ensures MergeCode(Uneven(), 1, Uneven().threads[1]) == Absorbed() && Typed(Absorbed())
  {
    hide Reachable, Exec, Typed;
    OneDirtyReachable();
    var a := LocksOther();
    a := AddsClean();
    a := LocksDirty();
    var s0 := Uneven();
    AbsorbedIs(s0);
    AbsorbedTyped();
  }

  lemma AbsorbedTyped()
    ensures Typed(Absorbed())
  {
  }

  lemma AbsorbedIs(s0: State)
    requires s0 == Uneven() && Typed(s0)
    ensures MergeCode(s0, 1, s0.threads[1]) == Absorbed()
  {
    hide Typed;
    assert Front([1, 2], s0.blocks) == 0 && Front([0], s0.blocks) == 1;
    var s1 := MergedState(s0, 1, s0.threads[1], 0, 2);
    assert s1.sets[2].list == [0, 1, 2];
    assert s1.blocks == Absorbed().blocks && s1.sets == Absorbed().sets;
    assert s1 == Absorbed();
  }

  /** Thread 1 found the set of block 3 locked and backed off: block 0 is alone in set 2. */
  function Orphaned(): State {
    State([Block(Some(2), true, Idle, false, 0),
           Block(None, false, Idle, false, 0),
           Block(None, false, Idle, false, 0),
           Block(Some(1), false, Idle, false, 0)],
          [BlockSet([], 0, 0, 1, None, false, false, Pending),
           BlockSet([3], 1, 0, 0, Some(3), false, false, Open),
           BlockSet([0], 1, 0, 0, None, false, false, Open)],
          [Outside,
           Wait([1, 2, 0, 3], ForDirtying(1)),
           Outside,
           Locked([3], 0, None, 1)],
          Resting, [0], [], 1, 0, 1, 0)
  }

  lemma BacksOff() returns (acts: seq<Action>)
    requires Typed(Absorbed())
    ensures Typed(Orphaned()) && Exec(Absorbed(), acts) == Some(Orphaned())
    ensures |acts| == 7
  {
    hide Exec, Typed;
    var s0 := Absorbed();
    acts := [];
    NoSteps(s0);
    var s1 := Moved(s0, 1, Loop([1, 2, 0, 3], 3, Some(2))).(sets := s0.sets[0 := s0.sets[0].(dirtying := None)]);
    GoOn(s0, acts, s0, Dirtier(1), s1);
    acts := acts + [Dirtier(1)];
    var s2 := Moved(s1, 1, Lock([1, 2, 0, 3], 3, Some(2), 1));
    GoOn(s0, acts, s1, Dirtier(1), s2);
    acts := acts + [Dirtier(1)];
    var s3 := Moved(s2, 1, Release([1, 2, 0, 3], [2], ForDirtying(1)));
    GoOn(s0, acts, s2, Dirtier(1), s3);
    acts := acts + [Dirtier(1)];
    var s4 := s3.(blocks := s3.blocks[2 := s3.blocks[2].(owner := None)],
                  sets := s3.sets[2 := s3.sets[2].(list := s3.sets[2].list[..2], size := s3.sets[2].size - 1)]);
    GoOn(s0, acts, s3, Dirtier(1), s4);
    acts := acts + [Dirtier(1)];
    var s5 := s4.(blocks := s4.blocks[1 := s4.blocks[1].(owner := None)],
                  sets := s4.sets[2 := s4.sets[2].(list := s4.sets[2].list[..1], size := s4.sets[2].size - 1)]);
    GoOn(s0, acts, s4, Dirtier(1), s5);
    acts := acts + [Dirtier(1)];
    assert [2][1..] == [];
    var s6 := Moved(s5, 1, Release([1, 2, 0, 3], [], ForDirtying(1))).(sets := s5.sets[2 := s5.sets[2].(dirtying := None)]);
    GoOn(s0, acts, s5, Dirtier(1), s6);
    acts := acts + [Dirtier(1)];
    var s7 := Moved(s6, 1, Wait([1, 2, 0, 3], ForDirtying(1)));
    GoOn(s0, acts, s6, Dirtier(1), s7);
    acts := acts + [Dirtier(1)];
    assert s7.sets[2].list == [0];
    assert s7.blocks == Orphaned().blocks && s7.sets == Orphaned().sets;
    assert s7 == Orphaned();
  }

  /** The worker has taken the empty set 0 and gone past number 1. */
  function Skipped(): State {
    State([Block(Some(2), true, Idle, false, 0),
           Block(None, false, Idle, false, 0),
           Block(None, false, Idle, false, 0),
           Block(Some(1), false, Idle, false, 0)],
          [BlockSet([], 0, 0, 1, None, false, true, Dead),
           BlockSet([3], 1, 0, 0, Some(3), false, false, Open),
           BlockSet([0], 1, 0, 0, None, false, false, Open)],
          [Outside,
           Wait([1, 2, 0, 3], ForDirtying(1)),
           Outside,
           Locked([3], 0, None, 1)],
          Picking, [], [], 1, 0, 1, 1)
  }

  lemma WorkerPasses() returns (acts: seq<Action>)
    requires Typed(Orphaned())
    ensures Typed(Skipped()) && Exec(Orphaned(), acts) == Some(Skipped())
    ensures |acts| == 5
  {
    hide Exec, Typed;
    var s0 := Orphaned();
    acts := [];
    NoSteps(s0);
    var s1 := s0.(list := s0.list + Reverse(s0.llist), llist := [], worker := Picking);
    GoOn(s0, acts, s0, Work, s1);
    acts := acts + [Work];
    var s2 := s1.(sets := s1.sets[0 := s1.sets[0].(writeback := true)], worker := Testing(0));
    GoOn(s0, acts, s1, Work, s2);
    acts := acts + [Work];
    var s3 := s2.(sets := s2.sets[0 := s2.sets[0].(stage := Taken)],
                  list := s2.list[1..], worker := Charging(0));
    GoOn(s0, acts, s2, Work, s3);
    acts := acts + [Work];
    var s4 := s3.(sets := s3.sets[0 := s3.sets[0].(stage := Dead)], worker := Advancing(0));
    GoOn(s0, acts, s3, Work, s4);
    acts := acts + [Work];
    var s5 := s4.(writebackSeq := s4.writebackSeq + 1, worker := Picking);
    GoOn(s0, acts, s4, Work, s5);
    acts := acts + [Work];
    assert s5.blocks == Skipped().blocks && s5.sets == Skipped().sets;
    assert s5 == Skipped();
  }

  lemma OrphanIsLost()
    ensures Lost(Orphaned(), 0, 2)
  {
  }

  /** As written, a merge leaves a dirty block in a set that is not queued. A sync up to the number of
      its former set finds its condition true, and the block is not written in any later state, whatever
      the worker and the threads that do not hold the set do. */
  lemma OrphanIsNeverWritten(acts: seq<Action>, r: State)
    requires Exec(Orphaned(), acts) == Some(r) && Avoids(Orphaned(), acts, 2)
    ensures Reachable(Uneven()) && Uneven().threads[1].Both?
    ensures Typed(Uneven()) && MergeCode(Uneven(), 1, Uneven().threads[1]) == Absorbed()
    ensures exists more :: Exec(Absorbed(), more) == Some(Orphaned())
    ensures Uneven().blocks[0].dirty && Numbered(Uneven(), 0, 1)
    ensures 0 < |r.blocks| && r.blocks[0].dirty && r.blocks[0].writes == 0 && r.sets != [] && 2 !in Queue(r)
    ensures exists more :: Exec(Orphaned(), more) == Some(Skipped())
    ensures Skipped().writebackSeq >= 1 && Skipped().nrWriteback == 0
            && Skipped().blocks[0].dirty && Skipped().blocks[0].writes == 0
  {
    hide Reachable, Exec, Typed, Queue, Avoids;
    AbsorbedIsCode();
    var more := BacksOff();
    more := WorkerPasses();
    OrphanIsLost();
    LostStays(Orphaned(), acts, r, 0, 2);
    LostIn(r, 0, 2);
  }
  // ---- a written block that keeps BL_DIRTY ----

  /** The write of block 0 is done, set 0 is about to let it go. */
  function Written(): State {
    State([Block(Some(0), true, Finished, true, 1),
           Block(None, false, Idle, false, 0),
           Block(None, false, Idle, false, 0),
           Block(None, false, Idle, false, 0)],
          [BlockSet([0], 0, 0, 1, None, true, true, Releasing)],
          [Outside,
           Outside,
           Outside,
           Outside],
          Picking, [], [], 0, 0, 1, 1)
  }

  lemma LastDone() returns (acts: seq<Action>)
    requires Reachable(Early()) && Typed(Early())
    ensures Reachable(Written()) && Typed(Written()) && Exec(Early(), acts) == Some(Written())
    ensures |acts| == 2 && acts[0] == Drops(0)
    ensures Uncompleted(acts)
  {
    hide Reachable, Exec, Typed;
    var s0 := Early();
    acts := [];
    NoSteps(s0);
    var s1 := s0.(blocks := s0.blocks[0 := s0.blocks[0].(io := Finished)],
                  sets := s0.sets[0 := s0.sets[0].(submitted := 0, stage := Finishing)]);
    StepOn(s0, acts, s0, Drops(0), s1);
    acts := acts + [Drops(0)];
    var s2 := s1.(sets := s1.sets[0 := s1.sets[0].(size := 0, stage := Releasing)],
                  blocks := Debit(s1.blocks, s1.sets[0].list), nrDirty := s1.nrDirty - s1.sets[0].size);
    StepOn(s0, acts, s1, Retires(0), s2);
    acts := acts + [Retires(0)];
    assert s2 == Written();
  }

  /** As written, block 0 has left its set and still shows BL_DIRTY. */
  function Kept(): State {
    State([Block(None, true, Idle, false, 1),
           Block(None, false, Idle, false, 0),
           Block(None, false, Idle, false, 0),
           Block(None, false, Idle, false, 0)],
          [BlockSet([], 0, 0, 1, None, true, true, Releasing)],
          [Outside,
           Outside,
           Outside,
           Outside],
          Picking, [], [], 0, 0, 1, 1)
  }

  /** Thread 1 has locked a new set of the new block 1. */
  function Again(): State {
    State([Block(None, true, Idle, false, 1),
           Block(Some(1), false, Idle, false, 0),
           Block(None, false, Idle, false, 0),
           Block(None, false, Idle, false, 0)],
          [BlockSet([], 0, 0, 1, None, true, false, Done),
           BlockSet([1], 1, 0, 0, Some(1), false, false, Open)],
          [Outside,
           Loop([1, 0], 1, Some(1)),
           Outside,
           Outside],
          Picking, [], [], 0, 0, 1, 1)
  }

  lemma LocksAgain() returns (acts: seq<Action>)
    requires Typed(Kept())
    ensures Typed(Again()) && Exec(Kept(), acts) == Some(Again())
    ensures |acts| == 6
  {
    hide Exec, Typed;
    var s0 := Kept();
    acts := [];
    NoSteps(s0);
    var s1 := s0.(sets := s0.sets[0 := s0.sets[0].(writeback := false, stage := Done)]);
    GoOn(s0, acts, s0, Retires(0), s1);
    acts := acts + [Retires(0)];
    var s2 := Moved(s1, 1, Loop([1, 0], 0, None));
    GoOn(s0, acts, s1, Begin(1, [1, 0]), s2);
    acts := acts + [Begin(1, [1, 0])];
    var s3 := Moved(s2, 1, Lock([1, 0], 0, None, 1)).(
      blocks := s2.blocks[1 := s2.blocks[1].(owner := Some(1))],
      sets := s2.sets + [BlockSet([1], 1, 0, 0, None, false, false, Open)]);
    GoOn(s0, acts, s2, Dirtier(1), s3);
    acts := acts + [Dirtier(1)];
    var s4 := Moved(s3, 1, Locked([1, 0], 0, None, 1)).(sets := s3.sets[1 := s3.sets[1].(dirtying := Some(1))]);
    GoOn(s0, acts, s3, Dirtier(1), s4);
    acts := acts + [Dirtier(1)];
    var s5 := Moved(s4, 1, Tested([1, 0], 0, None, 1));
    GoOn(s0, acts, s4, Dirtier(1), s5);
    acts := acts + [Dirtier(1)];
    var s6 := Moved(s5, 1, Loop([1, 0], 1, Some(1)));
    GoOn(s0, acts, s5, Dirtier(1), s6);
    acts := acts + [Dirtier(1)];
    assert s6.blocks == Again().blocks && s6.sets == Again().sets;
    assert s6 == Again();
  }

  /** Thread 1 has been through dirty_begin with the new block 1 and block 0. */
  function LeftClean(): State {
    State([Block(Some(1), true, Idle, false, 1),
           Block(Some(1), false, Idle, false, 0),
           Block(None, false, Idle, false, 0),
           Block(None, false, Idle, false, 0)],
          [BlockSet([], 0, 0, 1, None, true, false, Done),
           BlockSet([1, 0], 2, 0, 2, Some(1), true, false, Pending)],
          [Outside,
           Modify([1, 0], 1),
           Outside,
           Outside],
          Picking, [1], [], 0, 0, 2, 1)
  }

  lemma DirtiesAgain() returns (acts: seq<Action>)
    requires Typed(Again())
    ensures Typed(LeftClean()) && Exec(Again(), acts) == Some(LeftClean())
    ensures |acts| == 4
  {
    hide Exec, Typed;
    var s0 := Again();
    acts := [];
    NoSteps(s0);
    var s1 := Moved(s0, 1, Loop([1, 0], 2, Some(1))).(
      blocks := s0.blocks[0 := s0.blocks[0].(owner := Some(1))],
      sets := s0.sets[1 := s0.sets[1].(list := s0.sets[1].list + [0], size := s0.sets[1].size + 1)]);
    GoOn(s0, acts, s0, Dirtier(1), s1);
    acts := acts + [Dirtier(1)];
    var s2 := Moved(s1, 1, Mark([1, 0], 1, 2));
    GoOn(s0, acts, s1, Dirtier(1), s2);
    acts := acts + [Dirtier(1)];
    var s3 := Moved(s2, 1, Commit([1, 0], 1));
    GoOn(s0, acts, s2, Dirtier(1), s3);
    acts := acts + [Dirtier(1)];
    var s4 := Moved(s3, 1, Modify([1, 0], 1)).(
      sets := s3.sets[1 := s3.sets[1].(dirty := true, dirtySeq := s3.dirtySeq + 1, stage := Pending)],
      dirtySeq := s3.dirtySeq + 1, llist := [1] + s3.llist);
    GoOn(s0, acts, s3, Dirtier(1), s4);
    acts := acts + [Dirtier(1)];
    assert s4.sets[1].list == [1, 0];
    assert s4.blocks == LeftClean().blocks && s4.sets == LeftClean().sets;
    assert s4 == LeftClean();
  }

  /** Thread 1 is done, the worker has set 1. */
  function Taking(): State {
    State([Block(Some(1), true, Owed, false, 1),
           Block(Some(1), false, Owed, false, 0),
           Block(None, false, Idle, false, 0),
           Block(None, false, Idle, false, 0)],
          [BlockSet([], 0, 0, 1, None, true, false, Done),
           BlockSet([1, 0], 2, 0, 2, None, true, true, Charged)],
          [Outside,
           Outside,
           Outside,
           Outside],
          Counting(1), [], [], 0, 2, 2, 1)
  }

  lemma EndsAndGathers() returns (acts: seq<Action>)
    requires Typed(LeftClean())
    ensures Typed(Taking()) && Exec(LeftClean(), acts) == Some(Taking())
    ensures |acts| == 6
  {
    hide Exec, Typed;
    var s0 := LeftClean();
    acts := [];
    NoSteps(s0);
    var s1 := Moved(s0, 1, Outside).(sets := s0.sets[1 := s0.sets[1].(dirtying := None)]);
    GoOn(s0, acts, s0, Dirtier(1), s1);
    acts := acts + [Dirtier(1)];
    var s2 := s1.(worker := Resting);
    GoOn(s0, acts, s1, Work, s2);
    acts := acts + [Work];
    var s3 := s2.(list := s2.list + Reverse(s2.llist), llist := [], worker := Picking);
    GoOn(s0, acts, s2, Work, s3);
    acts := acts + [Work];
    var s4 := s3.(sets := s3.sets[1 := s3.sets[1].(writeback := true)], worker := Testing(1));
    GoOn(s0, acts, s3, Work, s4);
    acts := acts + [Work];
    var s5 := s4.(sets := s4.sets[1 := s4.sets[1].(stage := Taken)],
                  list := s4.list[1..], worker := Charging(1));
    GoOn(s0, acts, s4, Work, s5);
    acts := acts + [Work];
    var s6 := s5.(sets := s5.sets[1 := s5.sets[1].(stage := Charged)],
                  blocks := Charge(s5.blocks, s5.sets[1].list), nrWriteback := s5.nrWriteback + s5.sets[1].size,
                  worker := Counting(1));
    GoOn(s0, acts, s5, Work, s6);
    acts := acts + [Work];
    assert s6.blocks == Taking().blocks && s6.sets == Taking().sets;
    assert s6 == Taking();
  }

  /** The writes of blocks 0 and 1 are done. */
  function BothWritten(): State {
    State([Block(Some(1), true, Counted, false, 2),
           Block(Some(1), false, Counted, false, 1),
           Block(None, false, Idle, false, 0),
           Block(None, false, Idle, false, 0)],
          [BlockSet([], 0, 0, 1, None, true, false, Done),
           BlockSet([1, 0], 2, 2, 2, None, true, true, Flying)],
          [Outside,
           Outside,
           Outside,
           Outside],
          Submitting(1, []), [], [], 0, 0, 2, 1)
  }

  lemma WritesBoth() returns (acts: seq<Action>)
    requires Typed(Taking())
    ensures Typed(BothWritten()) && Exec(Taking(), acts) == Some(BothWritten())
    ensures |acts| == 5
  {
    hide Exec, Typed;
    var s0 := Taking();
    acts := [];
    NoSteps(s0);
    var s1 := s0.(sets := s0.sets[1 := s0.sets[1].(submitted := s0.sets[1].submitted + s0.sets[1].size,
                                                     stage := Flying)],
                  worker := Submitting(1, s0.sets[1].list));
    GoOn(s0, acts, s0, Work, s1);
    acts := acts + [Work];
    assert [1, 0][1..] == [0];
    var s2 := s1.(blocks := s1.blocks[1 := s1.blocks[1].(io := Queued)], worker := Submitting(1, [0]));
    GoOn(s0, acts, s1, Work, s2);
    acts := acts + [Work];
    assert [0][1..] == [];
    var s3 := s2.(blocks := s2.blocks[0 := s2.blocks[0].(io := Queued)], worker := Submitting(1, []));
    GoOn(s0, acts, s2, Work, s3);
    acts := acts + [Work];
    var s4 := s3.(blocks := s3.blocks[1 := s3.blocks[1].(io := Counted, writes := s3.blocks[1].writes + 1)],
                  nrWriteback := s3.nrWriteback - 1);
    GoOn(s0, acts, s3, Completes(1), s4);
    acts := acts + [Completes(1)];
    var s5 := s4.(blocks := s4.blocks[0 := s4.blocks[0].(io := Counted, writes := s4.blocks[0].writes + 1)],
                  nrWriteback := s4.nrWriteback - 1);
    GoOn(s0, acts, s4, Completes(0), s5);
    acts := acts + [Completes(0)];
    assert s5.blocks == BothWritten().blocks && s5.sets == BothWritten().sets;
    assert s5 == BothWritten();
  }

  /** The size of set 1 was taken from nr_dirty. */
  function Negative(): State {
    State([Block(Some(1), true, Finished, true, 2),
           Block(Some(1), false, Finished, true, 1),
           Block(None, false, Idle, false, 0),
           Block(None, false, Idle, false, 0)],
          [BlockSet([], 0, 0, 1, None, true, false, Done),
           BlockSet([1, 0], 0, 0, 2, None, true, true, Releasing)],
          [Outside,
           Outside,
           Outside,
           Outside],
          Submitting(1, []), [], [], -2, 0, 2, 1)
  }

  lemma Undercounts() returns (acts: seq<Action>)
    requires Typed(BothWritten())
    ensures Typed(Negative()) && Exec(BothWritten(), acts) == Some(Negative())
    ensures |acts| == 3
  {
    hide Exec, Typed;
    var s0 := BothWritten();
    acts := [];
    NoSteps(s0);
    var s1 := s0.(blocks := s0.blocks[1 := s0.blocks[1].(io := Finished)],
                  sets := s0.sets[1 := s0.sets[1].(submitted := 1, stage := Flying)]);
    GoOn(s0, acts, s0, Drops(1), s1);
    acts := acts + [Drops(1)];
    var s2 := s1.(blocks := s1.blocks[0 := s1.blocks[0].(io := Finished)],
                  sets := s1.sets[1 := s1.sets[1].(submitted := 0, stage := Finishing)]);
    GoOn(s0, acts, s1, Drops(0), s2);
    acts := acts + [Drops(0)];
    var s3 := s2.(sets := s2.sets[1 := s2.sets[1].(size := 0, stage := Releasing)],
                  blocks := Debit(s2.blocks, s2.sets[1].list), nrDirty := s2.nrDirty - s2.sets[1].size);
    GoOn(s0, acts, s2, Retires(1), s3);
    acts := acts + [Retires(1)];
    assert s3.blocks == Negative().blocks && s3.sets == Negative().sets;
    assert s3 == Negative();
  }

  lemma KeptTyped()
    ensures Typed(Kept())
  {
  }

  lemma KeptIs(s0: State)
    requires s0 == Written()
    ensures KeptDirty(s0, 0) == Kept()
  {
    var s1 := KeptDirty(s0, 0);
    assert s1.sets[0].list == [];
    assert s1.blocks == Kept().blocks && s1.sets == Kept().sets;
  }

  lemma KeptIsCode()
    ensures Reachable(Written()) && Typed(Written()) && Typed(Kept())
    ensures Written().sets[0].stage == Releasing && Written().sets[0].list == [0]
    ensures KeptDirty(Written(), 0) == Kept()
  {
    hide Reachable, Exec, Typed;
    EarlyReachable();
    var a := LastDone();
    KeptTyped();
    KeptIs(Written());
  }

  /** As written, a block that kept BL_DIRTY and is dirtied again together with a new one stops the
      walk that marks blocks: the caller is past dirty_begin and modifies a block that is not dirty,
      which in the model no run allows. */
  lemma LeftoverLeavesClean()
    ensures Reachable(Written()) && Written().sets[0].stage == Releasing && Written().sets[0].list == [0]
    ensures KeptDirty(Written(), 0) == Kept() && Typed(Kept())
    ensures exists acts :: Exec(Kept(), acts) == Some(LeftClean())
    ensures LeftClean().threads[1] == Modify([1, 0], 1) && !LeftClean().blocks[1].dirty
    ensures !Reachable(LeftClean())
  {
    hide Reachable, Exec, Typed;
    KeptIsCode();
    var a := LocksAgain();
    var c := DirtiesAgain();
    ExecConcat(Kept(), a, Again(), c, LeftClean());
    if Reachable(LeftClean()) {
      BlocksAreTogether(LeftClean(), 1, 0);
    }
  }

  /** The block that was never marked is written with its set all the same, and takes nr_dirty below
      zero. */
  lemma LeftoverTakesCountBelowZero() returns (acts: seq<Action>)
    ensures Typed(Kept()) && Exec(Kept(), acts) == Some(Negative()) && Negative().nrDirty == -2
  {
    hide Exec, Typed;
    KeptTyped();
    acts := LocksAgain();
    var more := DirtiesAgain();
    ExecConcat(Kept(), acts, Again(), more, LeftClean());
    acts := acts + more;
    more := EndsAndGathers();
    ExecConcat(Kept(), acts, LeftClean(), more, Taking());
    acts := acts + more;
    more := WritesBoth();
    ExecConcat(Kept(), acts, Taking(), more, BothWritten());
    acts := acts + more;
    more := Undercounts();
    ExecConcat(Kept(), acts, BothWritten(), more, Negative());
    acts := acts + more;
  }
}
