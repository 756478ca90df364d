/** Who wakes a sync: only the completion that lets a set go wakes blinf->waitq, so a sync whose condition
    comes true by the worker's store of writeback_seq may sleep on (shared/block.c:330-351, 464-469,
    634-656). */
module DirtyWake {
  import opened Options
  import opened DirtySets
  import opened DirtyInvariant
  import opened DirtyFrames
  import opened DirtyWork
  import opened DirtyRuns
  import opened DirtySync

  /** What sync_up_to_seq waits for. */
  predicate Met(s: State, n: nat) {
    s.writebackSeq >= n && s.nrWriteback == 0
  }

  /** The end of end_write_io for the last block of a set, the only place that wakes a sync. */
  predicate Wakes(s: State, a: Action) {
    a.Retires? && a.x < |s.sets| && s.sets[a.x].stage == Releasing && s.sets[a.x].list == []
  }

  /** Some set has a completion that has yet to wake. */
  predicate WakePending(s: State) {
    exists x :: 0 <= x < |s.sets| && s.sets[x].stage in {Flying, Finishing, Releasing}
  }

  /** Only a completion's decrement and the worker's increment can make the condition true. */
  lemma MetBy(s: State, a: Action, r: State, n: nat)
    requires Inv(s) && Typed(s) && Next(s, a) == Some(r) && !Met(s, n) && Met(r, n)
    ensures a.Completes? || (a.Work? && s.worker.Advancing? && r.sets == s.sets)
  {
    hide Inv, DirtierStep;
    if a.Dirtier? {
      DirtierWriteback(s, a.t, r);
    }
    CountsNonNegative(s);
    SetBits(s);
  }

  lemma CountsNonNegative(s: State)
    requires Inv(s)
    ensures s.nrWriteback >= 0
  {
    hide SetsOk, BlocksOk, ThreadsOk, HeldsOk, InTurn, WorkerOk, SyncsOk;
  }

  lemma DirtierWriteback(s: State, t: Tid, r: State)
    requires Typed(s) && t < |s.threads| && DirtierStep(s, t) == Some(r)
    ensures r.nrWriteback == s.nrWriteback && r.writebackSeq == s.writebackSeq
  {
    hide Splice, Repointed, Front, Typed;
  }

  /** When a step makes a sync's condition true, a wake is still to come exactly unless that step is the
      worker's increment of writeback_seq with no set in flight: a sync that tested after the last wake
      then sleeps on with its condition true. */
  lemma SyncIsWokenIff(s: State, a: Action, r: State, n: nat)
    requires Reachable(s) && Typed(s) && Next(s, a) == Some(r) && !Met(s, n) && Met(r, n)
    ensures WakePending(r) <==> !(a.Work? && s.worker.Advancing? && !WakePending(s))
  {
    hide Reachable, Inv, WakePending;
    ReachableHolds(s);
    MetBy(s, a, r, n);
    if a.Completes? {
      CompletionPends(s, a.b, r);
    } else {
      SamePending(s, r);
    }
  }

  lemma SamePending(s: State, r: State)
    requires r.sets == s.sets
    ensures WakePending(r) <==> WakePending(s)
  {
  }

  lemma CompletionPends(s: State, b: Bid, r: State)
    requires Inv(s) && Typed(s) && b < |s.blocks| && IoDone(s, b) == Some(r)
    ensures WakePending(r)
  {
    hide SetsOk, BlocksOk, ThreadsOk, HeldsOk, InTurn, WorkerOk, CountsOk, SyncsOk, SetOk;
    InFlight(s, b);
    var x := s.blocks[b].owner.value;
    assert r.sets[x].stage == Flying;
  }

  // ---- no wake comes by itself ----

  /** Nothing is queued or in flight. */
  predicate Still(s: State) {
    && s.list == [] && s.llist == [] && (s.worker == Resting || s.worker == Picking)
    && forall x :: 0 <= x < |s.sets| ==> s.sets[x].stage in {Open, Done, Dead}
  }

  predicate NoCalls(acts: seq<Action>) {
    forall k :: 0 <= k < |acts| ==> !acts[k].Dirtier?
  }

  predicate WakesIn(s: State, acts: seq<Action>)
    decreases |acts|
  {
    acts != [] && Typed(s) && Next(s, acts[0]).Some? &&
    (Wakes(s, acts[0]) || WakesIn(Next(s, acts[0]).value, acts[1..]))
  }

  lemma StillStep(s: State, a: Action, r: State)
    requires Inv(s) && Typed(s) && Next(s, a) == Some(r) && Still(s) && !a.Dirtier?
    ensures Still(r) && !Wakes(s, a)
  {
    hide SetsOk, BlocksOk, ThreadsOk, HeldsOk, InTurn, WorkerOk, CountsOk, SyncsOk;
    if a.Drops? && s.blocks[a.b].io == Counted {
      InFlight(s, a.b);
    }
  }

  /** From such a state no run without a step of dirty_begin or dirty_end wakes anybody. */
  lemma {:induction false} NobodyWakes(s: State, acts: seq<Action>)
    requires Inv(s) && Exec(s, acts).Some? && Still(s) && NoCalls(acts)
    ensures !WakesIn(s, acts)
    decreases |acts|
  {
    hide Inv, Typed, Next, Still, Wakes;
    if acts != [] {
      InvTyped(s);
      var m := Next(s, acts[0]).value;
      assert !acts[0].Dirtier?;
      StillStep(s, acts[0], m);
      StepKeeps(s, acts[0], m);
      NobodyWakes(m, acts[1..]);
    }
  }
}
