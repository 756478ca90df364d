/** Everything dirty can be written: while no thread holds DIRTYING, the worker and the completions come
    to an end, and then nothing is left to write (shared/block.c:431-656). */
module DirtyDrain {
  import opened Options
  import opened DirtySets
  import opened DirtyInvariant
  import opened DirtySteps
  import opened DirtyWork
  import opened DirtyRuns
  import opened DirtySync
  import opened DirtyServed

  // ---- what is left to do ----

  function BlockLeft(bl: Block): nat {
    match bl.io
    case Idle => if bl.dirty then 8 else 0
    case Owed => 7
    case Queued => 6
    case Counted => 5
    case Finished => 1
  }

  function SetLeft(st: BlockSet): nat {
    match st.stage
    case Open => 7
    case Pending => 6
    case Taken => 5
    case Charged => 4
    case Flying => 3
    case Finishing => 2
    case Releasing => 1
    case _ => 0
  }

  /** A set on the list costs the worker one round, of at most eleven steps besides the submissions. */
  function WorkerLeft(w: Worker, list: seq<Sid>): nat {
    match w
    case Charging(_) => 12
    case Counting(_) => 11
    case Submitting(_, _) => 10
    case Advancing(_) => 9
    case Backing(_) => 5
    case Waiting(_) => 4
    case Resting => 3
    case Picking => if list == [] then 4 else 2
    case Testing(_) => 1
  }

  function BlocksLeft(blocks: seq<Block>): nat {
    if blocks == [] then 0 else BlocksLeft(blocks[..|blocks| - 1]) + BlockLeft(blocks[|blocks| - 1])
  }

  function SetsLeft(sets: seq<BlockSet>): nat {
    if sets == [] then 0 else SetsLeft(sets[..|sets| - 1]) + SetLeft(sets[|sets| - 1])
  }

  function Left(s: State): nat {
    20 * (|s.list| + |s.llist|) + WorkerLeft(s.worker, s.list) + BlocksLeft(s.blocks) + SetsLeft(s.sets)
  }

  lemma {:induction false} BlocksFall(a: seq<Block>, b: seq<Block>, k: nat)
    requires |a| == |b| && forall j :: 0 <= j < |a| ==> BlockLeft(b[j]) <= BlockLeft(a[j])
    ensures BlocksLeft(b) <= BlocksLeft(a)
    ensures k < |a| && BlockLeft(b[k]) < BlockLeft(a[k]) ==> BlocksLeft(b) < BlocksLeft(a)
  {
    if a != [] {
      var n := |a| - 1;
      BlocksFall(a[..n], b[..n], k);
    }
  }

  lemma {:induction false} SetsFall(a: seq<BlockSet>, b: seq<BlockSet>, k: nat)
    requires |a| == |b| && forall j :: 0 <= j < |a| ==> SetLeft(b[j]) <= SetLeft(a[j])
    ensures SetsLeft(b) <= SetsLeft(a)
    ensures k < |a| && SetLeft(b[k]) < SetLeft(a[k]) ==> SetsLeft(b) < SetsLeft(a)
  {
    if a != [] {
      var n := |a| - 1;
      SetsFall(a[..n], b[..n], k);
    }
  }

  // ---- the steps of the worker and the completions ----

  predicate NobodyHolds(s: State) {
    forall x :: 0 <= x < |s.sets| ==> s.sets[x].dirtying.None?
  }

  /** A step of the worker or of a completion, other than the worker looking at an empty queue. */
  predicate Serves(s: State, a: Action) {
    match a
    case Work => !(s.worker == Resting && s.list == [] && s.llist == [])
    case Completes(_) => true
    case Drops(_) => true
    case Retires(_) => true
    case _ => false
  }

  /** What each such step does: it moves no thread, and no block or set is further from being let go. */
  predicate Falls(s: State, r: State) {
    && r.threads == s.threads && |r.blocks| == |s.blocks| && |r.sets| == |s.sets| && NobodyHolds(r)
    && (forall b :: 0 <= b < |s.blocks| ==> BlockLeft(r.blocks[b]) <= BlockLeft(s.blocks[b]))
    && (forall x :: 0 <= x < |s.sets| ==> SetLeft(r.sets[x]) <= SetLeft(s.sets[x]))
  }

  lemma ReverseLength(ids: seq<Sid>)
    ensures |Reverse(ids)| == |ids|
  {
  }

  lemma WorkFalls(s: State, r: State)
    requires Inv(s) && Typed(s) && NobodyHolds(s) && Serves(s, Work) && WorkerStep(s) == Some(r)
    ensures Falls(s, r) && Left(r) < Left(s)
  {
    hide Inv, Falls, Left;
    match s.worker {
      case Testing(x) => TestFalls(s, x, r);
      case Charging(x) => ChargeFalls(s, x, r);
      case Counting(x) => CountFalls(s, x, r);
      case Submitting(x, todo) => SubmitFalls(s, x, todo, r);
      case _ => RestFalls(s, r);
    }
  }

  lemma RestFalls(s: State, r: State)
    requires Typed(s) && NobodyHolds(s) && Serves(s, Work) && WorkerStep(s) == Some(r)
    requires s.worker.Resting? || s.worker.Picking? || s.worker.Backing? || s.worker.Waiting? || s.worker.Advancing?
    ensures Falls(s, r) && Left(r) < Left(s)
  {
    hide BlocksLeft, SetsLeft, Reverse;
    ReverseLength(s.llist);
    BlocksFall(s.blocks, r.blocks, 0);
    SetsFall(s.sets, r.sets, 0);
  }

  lemma TestFalls(s: State, x: Sid, r: State)
    requires Inv(s) && Typed(s) && NobodyHolds(s) && s.worker == Testing(x) && WorkerStep(s) == Some(r)
    ensures Falls(s, r) && Left(r) < Left(s)
  {
    hide SetsOk, BlocksOk, ThreadsOk, HeldsOk, CountsOk, SyncsOk, BlocksLeft, SetsLeft;
    assert Queue(s)[0] == s.list[0] == x;
    BlocksFall(s.blocks, r.blocks, 0);
    SetsFall(s.sets, r.sets, 0);
  }

  lemma ChargeIs(s: State, x: Sid, r: State)
    requires Typed(s) && s.worker == Charging(x) && WorkerStep(s) == Some(r)
    ensures x < |s.sets| && |r.blocks| == |s.blocks| && r.threads == s.threads && r.list == s.list && r.llist == s.llist
    ensures r.worker == Counting(x) || r.worker == Advancing(x)
    ensures r.sets == s.sets[x := s.sets[x].(stage := r.sets[x].stage)] && r.sets[x].stage in {Charged, Dead}
    ensures forall b :: 0 <= b < |s.blocks| ==>
              r.blocks[b] == s.blocks[b] || (b in s.sets[x].list && r.blocks[b] == s.blocks[b].(io := Owed))
  {
  }

  /** A taken set holds only dirty blocks. */
  lemma ChargeFalls(s: State, x: Sid, r: State)
    requires Inv(s) && Typed(s) && NobodyHolds(s) && s.worker == Charging(x) && WorkerStep(s) == Some(r)
    ensures Falls(s, r) && Left(r) < Left(s)
  {
    hide BlocksLeft, SetsLeft, Inv, Typed, SetOk, WorkerStep;
    InvParts(s);
    ChargingAt(s, x);
    ChargeIs(s, x, r);
    SetAt(s, x);
    hide SetsOk, BlocksOk, ThreadsOk, HeldsOk, InTurn, CountsOk, SyncsOk, WorkerOk;
    forall b | 0 <= b < |s.blocks| && b in s.sets[x].list
      ensures s.blocks[b].dirty && s.blocks[b].io == Idle
    {
      Member(x, s.sets[x], s.blocks, b);
    }
    BlocksFall(s.blocks, r.blocks, 0);
    SetsFall(s.sets, r.sets, 0);
  }

  lemma CountFalls(s: State, x: Sid, r: State)
    requires Inv(s) && Typed(s) && NobodyHolds(s) && s.worker == Counting(x) && WorkerStep(s) == Some(r)
    ensures Falls(s, r) && Left(r) < Left(s)
  {
    hide SetsOk, BlocksOk, ThreadsOk, HeldsOk, InTurn, CountsOk, SyncsOk, BlocksLeft, SetsLeft, Typed;
    BlocksFall(s.blocks, r.blocks, 0);
    SetsFall(s.sets, r.sets, 0);
  }

  lemma SubmitFalls(s: State, x: Sid, todo: seq<Bid>, r: State)
    requires Inv(s) && Typed(s) && NobodyHolds(s) && s.worker == Submitting(x, todo) && WorkerStep(s) == Some(r)
    ensures Falls(s, r) && Left(r) < Left(s)
  {
    hide SetsOk, BlocksOk, ThreadsOk, HeldsOk, InTurn, CountsOk, SyncsOk, BlocksLeft, SetsLeft;
    if todo != [] {
      BlocksFall(s.blocks, r.blocks, todo[0]);
    }
    BlocksFall(s.blocks, r.blocks, 0);
    SetsFall(s.sets, r.sets, 0);
  }

  lemma DropFalls(s: State, b: Bid, r: State)
    requires Inv(s) && Typed(s) && NobodyHolds(s) && b < |s.blocks| && Drop(s, b) == Some(r)
    ensures Falls(s, r) && Left(r) < Left(s)
  {
    hide SetsOk, BlocksOk, ThreadsOk, HeldsOk, InTurn, CountsOk, SyncsOk, WorkerOk, BlocksLeft, SetsLeft;
    BlockAt(s, b);
    var x := s.blocks[b].owner.value;
    SetAt(s, x);
    Member(x, s.sets[x], s.blocks, b);
    BlocksFall(s.blocks, r.blocks, b);
    SetsFall(s.sets, r.sets, x);
  }

  lemma RetireFalls(s: State, x: Sid, r: State)
    requires Inv(s) && Typed(s) && NobodyHolds(s) && x < |s.sets| && Retire(s, x) == Some(r)
    ensures Falls(s, r) && Left(r) < Left(s)
  {
    hide SetsOk, BlocksOk, ThreadsOk, HeldsOk, InTurn, CountsOk, SyncsOk, WorkerOk, BlocksLeft, SetsLeft;
    SetAt(s, x);
    var st := s.sets[x];
    if st.stage.Releasing? && st.list != [] {
      Member(x, st, s.blocks, st.list[0]);
      BlocksFall(s.blocks, r.blocks, st.list[0]);
    } else {
      BlocksFall(s.blocks, r.blocks, 0);
    }
    SetsFall(s.sets, r.sets, x);
  }

  /** While nobody holds DIRTYING, each of these steps leaves less to do. */
  lemma ServeFalls(s: State, a: Action, r: State)
    requires Inv(s) && Typed(s) && NobodyHolds(s) && Serves(s, a) && Next(s, a) == Some(r)
    ensures Falls(s, r) && Left(r) < Left(s)
  {
    hide Inv, WorkerStep, Drop, Retire, Falls, Left, NobodyHolds;
    match a {
      case Work => WorkFalls(s, r);
      case Completes(b) => DoneFalls(s, b, r);
      case Drops(b) => DropFalls(s, b, r);
      case Retires(x) => RetireFalls(s, x, r);
      case _ =>
    }
  }

  lemma DoneFalls(s: State, b: Bid, r: State)
    requires Typed(s) && NobodyHolds(s) && b < |s.blocks| && IoDone(s, b) == Some(r)
    ensures Falls(s, r) && Left(r) < Left(s)
  {
    hide BlocksLeft, SetsLeft;
    BlocksFall(s.blocks, r.blocks, b);
    SetsFall(s.sets, r.sets, 0);
  }

  // ---- nothing left ----

  /** The queue is empty, nothing is in flight, and no block is dirty. */
  predicate Clean(s: State) {
    && s.list == [] && s.llist == [] && s.worker == Resting
    && (forall b :: 0 <= b < |s.blocks| ==> !s.blocks[b].dirty && s.blocks[b].io == Idle)
    && (forall x :: 0 <= x < |s.sets| ==> s.sets[x].stage in {Open, Done, Dead})
    && s.nrDirty == 0 && s.nrWriteback == 0 && s.writebackSeq == s.dirtySeq
  }

  predicate InService(s: State) {
    exists x :: 0 <= x < |s.sets| && s.sets[x].stage in {Flying, Finishing, Releasing}
  }

  /** Unless the state is clean, one of these steps can be taken. */
  lemma SomeServes(s: State) returns (a: Action)
    requires Reachable(s) && NobodyHolds(s) && !Clean(s)
    ensures Typed(s) && Serves(s, a) && Next(s, a).Some?
  {
    hide Reachable, Inv, Clean;
    ReachableHolds(s);
    InvParts(s);
    hide SetsOk, BlocksOk, ThreadsOk, HeldsOk, InTurn, CountsOk;
    if s.worker != Resting || s.list != [] || s.llist != [] {
      a := Work;
      hide Typed;
      WorkerCan(s);
    } else if InService(s) {
      var x :| 0 <= x < |s.sets| && s.sets[x].stage in {Flying, Finishing, Releasing};
      if s.sets[x].stage == Flying {
        FlyingIsServed(s, x);
      } else {
        RetireIsServed(s, x);
      }
      if Next(s, Retires(x)).Some? {
        a := Retires(x);
      } else {
        var b: Bid :| BlockServes(s, x, b);
        a := if Next(s, Completes(b)).Some? then Completes(b) else Drops(b);
      }
    } else {
      RestingIsClean(s);
      assert false;
    }
  }

  lemma WorkerCan(s: State)
    requires Typed(s) && WorkerOk(s) && NobodyHolds(s)
    ensures WorkerStep(s).Some?
  {
    hide Charge, Reverse;
  }

  lemma RestingIsClean(s: State)
    requires Inv(s) && s.worker == Resting && s.list == [] && s.llist == [] && NobodyHolds(s) && !InService(s)
    ensures Clean(s)
  {
    hide Inv;
    InvParts(s);
    assert Queue(s) == [];
    forall x | 0 <= x < |s.sets|
      ensures s.sets[x].stage in {Open, Done, Dead}
    {
      RestingStage(s, x);
    }
    forall b | 0 <= b < |s.blocks|
      ensures !s.blocks[b].dirty && s.blocks[b].io == Idle
    {
      RestingBlock(s, b);
    }
    hide SetsOk, BlocksOk, ThreadsOk, HeldsOk, WorkerOk;
    NothingDirty(s.blocks);
  }

  lemma RestingStage(s: State, x: Sid)
    requires InTurn(s) && WorkerOk(s) && Queue(s) == [] && s.worker == Resting && x < |s.sets| && !InService(s)
    ensures s.sets[x].stage in {Open, Done, Dead}
  {
    hide Queue;
  }

  lemma RestingBlock(s: State, b: Bid)
    requires SetsOk(s) && BlocksOk(s) && NobodyHolds(s) && b < |s.blocks|
    requires forall x :: 0 <= x < |s.sets| ==> s.sets[x].stage in {Open, Done, Dead}
    ensures !s.blocks[b].dirty && s.blocks[b].io == Idle
  {
    BlockAt(s, b);
    hide BlocksOk, SetsOk;
    if s.blocks[b].owner.Some? {
      var x := s.blocks[b].owner.value;
      SetAt(s, x);
      var k :| 0 <= k < |s.sets[x].list| && s.sets[x].list[k] == b;
    }
  }

  lemma {:induction false} NothingDirty(blocks: seq<Block>)
    requires forall b :: 0 <= b < |blocks| ==> !blocks[b].dirty && blocks[b].io == Idle
    ensures CountDirty(blocks) == 0 && CountWriteback(blocks) == 0
  {
    if blocks != [] {
      NothingDirty(blocks[..|blocks| - 1]);
    }
  }

  // ---- runs ----

  /** Each step is one of the worker or of a completion, and not the worker's look at an empty queue. */
  predicate ServeRun(s: State, acts: seq<Action>)
    decreases |acts|
  {
    acts != [] ==>
      Typed(s) && Serves(s, acts[0]) && Next(s, acts[0]).Some? && ServeRun(Next(s, acts[0]).value, acts[1..])
  }

  /** A write that was due has been completed or is still due. */
  predicate WritesKept(s: State, r: State) {
    && |r.blocks| == |s.blocks|
    && forall b :: 0 <= b < |s.blocks| ==>
         && r.blocks[b].writes >= s.blocks[b].writes
         && (s.blocks[b].dirty && Unwritten(s.blocks[b]) ==>
               r.blocks[b].writes > s.blocks[b].writes || (r.blocks[b].dirty && Unwritten(r.blocks[b])))
  }

  lemma ServeWrites(s: State, a: Action, r: State)
    requires Inv(s) && Typed(s) && Serves(s, a) && Next(s, a) == Some(r)
    ensures WritesKept(s, r) && r.dirtySeq == s.dirtySeq
  {
    hide Inv;
    if a.Retires? {
      RetireWrites(s, a.x, r);
    } else {
      hide Retire;
    }
  }

  lemma RetireWrites(s: State, x: Sid, r: State)
    requires Inv(s) && Typed(s) && x < |s.sets| && Retire(s, x) == Some(r)
    ensures WritesKept(s, r) && r.dirtySeq == s.dirtySeq
  {
    hide SetsOk, BlocksOk, ThreadsOk, HeldsOk, InTurn, CountsOk, SyncsOk, WorkerOk;
    SetAt(s, x);
    if s.sets[x].list != [] {
      Member(x, s.sets[x], s.blocks, s.sets[x].list[0]);
    }
  }

  lemma {:induction false} ServeRunFalls(s: State, acts: seq<Action>, r: State)
    requires Inv(s) && NobodyHolds(s) && ServeRun(s, acts) && Exec(s, acts) == Some(r)
    ensures |acts| + Left(r) <= Left(s)
    ensures r.threads == s.threads && |r.sets| == |s.sets| && NobodyHolds(r)
    ensures WritesKept(s, r) && r.dirtySeq == s.dirtySeq
    decreases |acts|
  {
    hide Inv, Typed, Next, Left, Serves, NobodyHolds;
    if acts != [] {
      var m := Next(s, acts[0]).value;
      StepKeeps(s, acts[0], m);
      ServeFalls(s, acts[0], m);
      ServeWrites(s, acts[0], m);
      ServeRunFalls(m, acts[1..], r);
    }
  }

  lemma {:induction false} DrainFrom(s: State) returns (acts: seq<Action>, r: State)
    requires Reachable(s) && NobodyHolds(s)
    ensures ServeRun(s, acts) && Exec(s, acts) == Some(r) && Clean(r)
    decreases Left(s)
  {
    hide Reachable, Inv, Next, Typed, Left, Serves, NobodyHolds, Clean;
    if Clean(s) {
      acts, r := [], s;
    } else {
      var a := SomeServes(s);
      ReachableHolds(s);
      var m := Next(s, a).value;
      ReachableNext(s, a, m);
      ServeFalls(s, a, m);
      var more;
      more, r := DrainFrom(m);
      acts := [a] + more;
      assert acts[1..] == more;
    }
  }

  /** While no thread holds DIRTYING, every run of the worker and the completions is shorter than the
      bound Left gives, however they interleave; it can be continued until the state is clean; and then
      each block that was dirty with its write not completed has been written. */
  lemma EverythingIsWritten(s: State, acts: seq<Action>, m: State)
    requires Reachable(s) && (forall t :: 0 <= t < |s.threads| ==> Holds(s.threads[t]) == [])
    requires ServeRun(s, acts) && Exec(s, acts) == Some(m)
    ensures |acts| <= Left(s)
    ensures exists more: seq<Action> ::
              && ServeRun(m, more) && Exec(m, more).Some?
              && var r := Exec(m, more).value;
                 && Clean(r) && r.threads == s.threads && |r.blocks| == |s.blocks|
                 && forall b :: 0 <= b < |s.blocks| && s.blocks[b].dirty && Unwritten(s.blocks[b]) ==>
                      r.blocks[b].writes > s.blocks[b].writes
  {
    hide Reachable, Inv, Exec, ServeRun, Left;
    ReachableHolds(s);
    NoHolders(s);
    ServeRunFalls(s, acts, m);
    ReachableRun(s, acts, m);
    ReachableHolds(m);
    var more, r := DrainFrom(m);
    ServeRunFalls(m, more, r);
  }

  lemma NoHolders(s: State)
    requires Inv(s) && (forall t :: 0 <= t < |s.threads| ==> Holds(s.threads[t]) == [])
    ensures NobodyHolds(s)
  {
    hide SetsOk, BlocksOk, ThreadsOk, InTurn, WorkerOk, CountsOk, SyncsOk;
    forall x | 0 <= x < |s.sets|
      ensures s.sets[x].dirtying.None?
    {
      assert Held(x, s.sets[x], s.threads);
    }
  }
}
