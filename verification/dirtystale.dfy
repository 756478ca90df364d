/** A run in which a thread locks a set that its block has left, so that the load of bl->set must be
    repeated under the lock (shared/block.c:734-751, 875-911). */
module DirtyStale {
  import opened Options
  import opened DirtySets
  import opened DirtyInvariant
  import opened DirtySteps
  import opened DirtyRuns

  function Start(): State {
    var b := Block(None, false, Idle, false, 0);
    State([b, b], [], [Outside, Outside, Outside], Resting, [], [], 0, 0, 0, 0)
  }

  lemma StartReachable()
    ensures Reachable(Start()) && Typed(Start())
  {
    assert Exec(Start(), []) == Some(Start());
    assert Initial(Start());
  }

  function Moved(s: State, t: Tid, pc: Pc): State
    requires t < |s.threads|
  {
    s.(threads := s.threads[t := pc])
  }

  /** Thread 2 holds the set of block 1; thread 0 has made a set for block 0, which thread 1 has
      read but not locked. */
  function Read(): State {
    var b := Block(None, false, Idle, false, 0);
    State([b.(owner := Some(1)), b.(owner := Some(0))],
          [BlockSet([1], 1, 0, 0, Some(2), false, false, Open), BlockSet([0], 1, 0, 0, None, false, false, Open)],
          [Lock([0, 1], 0, None, 1), Lock([0], 0, None, 1), Locked([1], 0, None, 0)],
          Resting, [], [], 0, 0, 0, 0)
  }

  /** Thread 2 alone has begun. */
  function Held(): State {
    var b := Block(None, false, Idle, false, 0);
    State([b, b.(owner := Some(0))], [BlockSet([1], 1, 0, 0, Some(2), false, false, Open)],
          [Outside, Outside, Locked([1], 0, None, 0)], Resting, [], [], 0, 0, 0, 0)
  }

  lemma HeldReachable()
    ensures Reachable(Held()) && Typed(Held())
  {
    hide Reachable, Typed;
    StartReachable();
    var s0 := Start();
    var s1 := Moved(s0, 2, Loop([1], 0, None));
    ReachableNext(s0, Begin(2, [1]), s1);
    var s2 := Moved(s1, 2, Lock([1], 0, None, 0)).(
      blocks := s1.blocks[1 := s1.blocks[1].(owner := Some(0))],
      sets := s1.sets + [BlockSet([1], 1, 0, 0, None, false, false, Open)]);
    ReachableNext(s1, Dirtier(2), s2);
    var s3 := Moved(s2, 2, Locked([1], 0, None, 0)).(sets := s2.sets[0 := s2.sets[0].(dirtying := Some(2))]);
    ReachableNext(s2, Dirtier(2), s3);
    assert s3 == Held();
  }

  lemma ReadReachable()
    ensures Reachable(Read()) && Typed(Read())
  {
    hide Reachable, Typed;
    HeldReachable();
    var s3 := Held();
    var s4 := Moved(s3, 0, Loop([0, 1], 0, None));
    ReachableNext(s3, Begin(0, [0, 1]), s4);
    var s5 := Moved(s4, 0, Lock([0, 1], 0, None, 1)).(
      blocks := s4.blocks[0 := s4.blocks[0].(owner := Some(1))],
      sets := s4.sets + [BlockSet([0], 1, 0, 0, None, false, false, Open)]);
    ReachableNext(s4, Dirtier(0), s5);
    var s6 := Moved(s5, 1, Loop([0], 0, None));
    ReachableNext(s5, Begin(1, [0]), s6);
    var s7 := Moved(s6, 1, Lock([0], 0, None, 1));
    ReachableNext(s6, Dirtier(1), s7);
    assert s7 == Read();
  }

  /** Thread 0 has found block 1's set locked and is about to let its own set go. */
  function Backed(): State {
    var s := Read();
    s.(sets := [s.sets[0], s.sets[1].(dirtying := Some(0))],
       threads := [Release([0, 1], [1], ForDirtying(0)), s.threads[1], s.threads[2]])
  }

  lemma BackedReachable()
    ensures Reachable(Backed()) && Typed(Backed())
  {
    hide Reachable, Typed;
    ReadReachable();
    var s0 := Read();
    var s1 := Moved(s0, 0, Locked([0, 1], 0, None, 1)).(sets := s0.sets[1 := s0.sets[1].(dirtying := Some(0))]);
    ReachableNext(s0, Dirtier(0), s1);
    var s2 := Moved(s1, 0, Tested([0, 1], 0, None, 1));
    ReachableNext(s1, Dirtier(0), s2);
    var s3 := Moved(s2, 0, Loop([0, 1], 1, Some(1)));
    ReachableNext(s2, Dirtier(0), s3);
    var s4 := Moved(s3, 0, Lock([0, 1], 1, Some(1), 0));
    ReachableNext(s3, Dirtier(0), s4);
    var s5 := Moved(s4, 0, Release([0, 1], [1], ForDirtying(0)));
    ReachableNext(s4, Dirtier(0), s5);
    assert s5 == Backed();
  }

  /** Thread 1 has locked the emptied set and found it not under writeback. */
  function Stale(): State {
    var s := Backed();
    s.(blocks := [s.blocks[0].(owner := None), s.blocks[1]],
       sets := [s.sets[0], BlockSet([], 0, 0, 0, Some(1), false, false, Open)],
       threads := [Release([0, 1], [], ForDirtying(0)), Tested([0], 0, None, 1), s.threads[2]])
  }

  /** The state is reachable: the thread is past its DIRTYING and WRITEBACK tests on a set that none
      of its blocks is in. As written, dirty_begin would go on and return success. */
  lemma StaleReachable()
    ensures Reachable(Stale())
    ensures var s := Stale();
            s.threads[1] == Tested([0], 0, None, 1) && s.blocks[0].owner != Some(1) && s.sets[1].list == []
  {
    hide Reachable, Typed;
    BackedReachable();
    var s0 := Backed();
    var s1 := s0.(blocks := s0.blocks[0 := s0.blocks[0].(owner := None)],
                  sets := s0.sets[1 := s0.sets[1].(list := [], size := 0)]);
    assert [0][..0] == [];
    ReachableNext(s0, Dirtier(0), s1);
    var s2 := Moved(s1, 0, Release([0, 1], [], ForDirtying(0))).(sets := s1.sets[1 := s1.sets[1].(dirtying := None)]);
    assert [1][1..] == [];
    ReachableNext(s1, Dirtier(0), s2);
    var s3 := Moved(s2, 1, Locked([0], 0, None, 1)).(sets := s2.sets[1 := s2.sets[1].(dirtying := Some(1))]);
    ReachableNext(s2, Dirtier(1), s3);
    var s4 := Moved(s3, 1, Tested([0], 0, None, 1));
    ReachableNext(s3, Dirtier(1), s4);
    assert s4 == Stale();
  }

  /** Without the second load the thread takes the set as its own, when it is the first. That is
      right, that is the blocks asked for so far are in it, exactly when bl->set still names it. */
  lemma LockedSetIsOursIff(s: State, t: Tid)
    requires Reachable(s) && t < |s.threads| && s.threads[t].Tested? && s.threads[t].large.None?
    ensures var pc := s.threads[t];
            && pc.i < |pc.bs| && InRange(pc.bs, |s.blocks|)
            && (Building(Some(pc.small), pc.bs, pc.i + 1, t, s.blocks, s.sets)
                <==> s.blocks[pc.bs[pc.i]].owner == Some(pc.small))
  {
    hide Reachable, SetsOk, BlocksOk, HeldsOk, InTurn, WorkerOk, CountsOk, SyncsOk, Shaped;
    ReachableHolds(s);
    var pc := s.threads[t];
    assert ThreadOk(t, pc, s.blocks, s.sets);
    assert Asked(pc) == pc.bs && InRange(pc.bs, |s.blocks|) && pc.i < |pc.bs|;
    if s.blocks[pc.bs[pc.i]].owner == Some(pc.small) {
      StaysCalm(s, pc.bs[pc.i], pc.small);
    }
  }

  /** And it merges the set with the one being built, when it is a later one. Whichever of the two
      survives, the blocks asked for so far are in it exactly when bl->set still names one of them. */
  lemma MergedSetHoldsAllIff(s: State, t: Tid, pc: Pc, x: Sid, y: Sid)
    requires Reachable(s) && t < |s.threads| && pc == s.threads[t] && pc.Tested? && pc.large.Some?
    requires (x == pc.small && y == pc.large.value) || (x == pc.large.value && y == pc.small)
    ensures MergeRanges(s, x, y) && pc.i < |pc.bs| && InRange(pc.bs, |s.blocks|)
    ensures var r := MergedState(s, t, Both(pc.bs, pc.i, pc.large.value, pc.small), x, y);
            && |r.blocks| == |s.blocks|
            && (Joined(pc.bs, pc.i + 1, r.blocks, y)
                <==> s.blocks[pc.bs[pc.i]].owner == Some(pc.small) || s.blocks[pc.bs[pc.i]].owner == pc.large)
  {
    hide Reachable, Inv, MergedState, Joined, SetsOk, BlocksOk, ThreadsOk, HeldsOk, InTurn, WorkerOk, CountsOk, SyncsOk;
    hide InRange, Repointed, Typed;
    ReachableHolds(s);
    InvParts(s);
    TestedFacts(s, t, pc, x, y);
    MergedBlocks(s, t, Both(pc.bs, pc.i, pc.large.value, pc.small), x, y);
    RepointedJoins(s, pc.bs, pc.i, pc.large.value, x, y);
  }

  lemma MergedBlocks(s: State, t: Tid, both: Pc, x: Sid, y: Sid)
    requires MergeRanges(s, x, y) && x != y && t < |s.threads| && both.Both?
    ensures MergedState(s, t, both, x, y).blocks == Repointed(s.blocks, s.sets[x].list, y)
  {
    hide Splice;
  }

  lemma TestedFacts(s: State, t: Tid, pc: Pc, x: Sid, y: Sid)
    requires SetsOk(s) && ThreadsOk(s) && t < |s.threads| && pc == s.threads[t] && pc.Tested? && pc.large.Some?
    requires (x == pc.small && y == pc.large.value) || (x == pc.large.value && y == pc.small)
    ensures MergeRanges(s, x, y) && x != y && pc.i < |pc.bs| && InRange(pc.bs, |s.blocks|)
    ensures Joined(pc.bs, pc.i, s.blocks, pc.large.value)
  {
    hide SetsOk, ThreadsOk, Shaped, IoOk, BitsOk, Settled, AllDebited, Joined;
    ThreadAt(s, t);
    assert Asked(pc) == pc.bs && Own(x, t, s.sets) && Own(y, t, s.sets);
    NotSame(pc.large, pc.small);
    SetAt(s, x);
    SetAt(s, y);
  }

  lemma RepointedJoins(s: State, bs: seq<Bid>, i: nat, first: Sid, x: Sid, y: Sid)
    requires SetsOk(s) && BlocksOk(s) && x < |s.sets| && y < |s.sets| && (first == x || first == y)
    requires i < |bs| && InRange(bs, |s.blocks|) && Joined(bs, i, s.blocks, first)
    ensures Joined(bs, i + 1, Repointed(s.blocks, s.sets[x].list, y), y)
            <==> s.blocks[bs[i]].owner == Some(x) || s.blocks[bs[i]].owner == Some(y)
  {
    hide SetsOk, BlocksOk;
    var after := Repointed(s.blocks, s.sets[x].list, y);
    forall j | 0 <= j <= i
      ensures after[bs[j]].owner == if s.blocks[bs[j]].owner == Some(x) then Some(y) else s.blocks[bs[j]].owner
    {
      Listed(s, bs[j], x);
    }
    assert after[bs[i]].owner == Some(y) <==>
           s.blocks[bs[i]].owner == Some(x) || s.blocks[bs[i]].owner == Some(y);
  }

  lemma StaysCalm(s: State, b: Bid, x: Sid)
    requires Inv(s) && b < |s.blocks| && x < |s.sets| && s.blocks[b].owner == Some(x)
    ensures s.sets[x].stage != Done && s.sets[x].stage != Dead
  {
    assert SetOk(x, s.sets[x], s.blocks);
    assert BlockOk(b, s.blocks[b], s.sets);
  }
}
