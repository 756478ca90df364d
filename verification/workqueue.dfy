/** queue_work and the worker loop (shared/lk/workqueue.c:24-69): any number of threads queue any
    number of work items to one worker. */
module WorkQueue {
  import opened Options
  import opened Tally

  /** A queuing thread: outside; or between setting WORK_QUEUED and enqueueing. */
  datatype Queuer = Outside | Won(item: nat)

  /** The worker: waiting for the queue; holding a dequeued item; with WORK_QUEUED cleared, about to
      call func. */
  datatype Worker = Idle | Dequeued(item: nat) | Cleared(item: nat)

  /** bits holds WORK_QUEUED of each item. starts counts calls of each func and owed the number it
      must reach for every queue_work call so far to be followed by one; no step reads them. */
  datatype State = State(
    bits: seq<bool>, queue: seq<nat>, queuers: seq<Queuer>, worker: Worker, starts: seq<nat>, owed: seq<nat>)

  datatype Action = Queue(t: nat, i: nat) | Enqueue(t: nat) | Work

  /** queue_work: test_and_set_bit, and later the enqueue if the bit was clear. */
  function QueueWork(s: State, t: nat, i: nat): Option<State> {
    if t < |s.queuers| && s.queuers[t].Outside? && i < |s.bits| && i < |s.starts| && i < |s.owed| then
      var s1 := s.(owed := s.owed[i := s.starts[i] + 1]);
      if s.bits[i] then Some(s1)
      else Some(s1.(bits := s.bits[i := true], queuers := s.queuers[t := Won(i)]))
    else None
  }

  function EnqueueStep(s: State, t: nat): Option<State> {
    if t < |s.queuers| && s.queuers[t].Won? then
      Some(s.(queue := s.queue + [s.queuers[t].item], queuers := s.queuers[t := Outside]))
    else None
  }

  function WorkStep(s: State): Option<State> {
    match s.worker
    case Idle =>
      if s.queue == [] then None else Some(s.(worker := Dequeued(s.queue[0]), queue := s.queue[1..]))
    case Dequeued(i) =>
      if i < |s.bits| then Some(s.(bits := s.bits[i := false], worker := Cleared(i))) else None
    case Cleared(i) =>
      if i < |s.starts| then Some(s.(starts := s.starts[i := s.starts[i] + 1], worker := Idle)) else None
  }

  function Next(s: State, a: Action): Option<State> {
    match a
    case Queue(t, i) => QueueWork(s, t, i)
    case Enqueue(t) => EnqueueStep(s, t)
    case Work => WorkStep(s)
  }

  predicate Initial(s: State) {
    && s.queue == [] && s.worker == Idle && |s.starts| == |s.bits| == |s.owed|
    && (forall t :: 0 <= t < |s.queuers| ==> s.queuers[t] == Outside)
    && (forall i :: 0 <= i < |s.bits| ==> !s.bits[i] && s.starts[i] == 0 && s.owed[i] == 0)
  }

  function Winners(qs: seq<Queuer>, i: nat): nat {
    if qs == [] then 0 else Winners(qs[..|qs| - 1], i) + One(qs[|qs| - 1] == Won(i))
  }

  /** In how many places an item is between being claimed and its bit being cleared. */
  function Places(s: State, i: nat): nat {
    Winners(s.queuers, i) + Entries(s.queue, i) + One(s.worker == Dequeued(i))
  }

  predicate ItemOk(s: State, i: nat)
    requires i < |s.bits| && i < |s.starts| && i < |s.owed|
  {
    && Places(s, i) == One(s.bits[i])
    && s.owed[i] <= s.starts[i] + 1
    && (s.owed[i] == s.starts[i] + 1 ==> s.bits[i] || s.worker == Cleared(i))
  }

  /** WORK_QUEUED is set exactly while the item is in one place on its way to the worker, and a func
      call that is owed is on its way. */
  predicate Inv(s: State) {
    && |s.starts| == |s.bits| == |s.owed|
    && (forall t :: 0 <= t < |s.queuers| && s.queuers[t].Won? ==> s.queuers[t].item < |s.bits|)
    && (forall k :: 0 <= k < |s.queue| ==> s.queue[k] < |s.bits|)
    && (!s.worker.Idle? ==> s.worker.item < |s.bits|)
    && (forall i :: 0 <= i < |s.bits| ==> ItemOk(s, i))
  }

  lemma {:induction false} WinnersOne(qs: seq<Queuer>, t: nat, q: Queuer, i: nat)
    requires t < |qs|
    ensures Winners(qs[t := q], i) == Winners(qs, i) - One(qs[t] == Won(i)) + One(q == Won(i))
  {
    var n := |qs| - 1;
    if t < n {
      assert qs[t := q][..n] == qs[..n][t := q];
      WinnersOne(qs[..n], t, q, i);
    } else {
      assert qs[t := q][..n] == qs[..n];
    }
  }

  lemma StepKeeps(s: State, a: Action, r: State)
    requires Inv(s) && Next(s, a) == Some(r)
    ensures Inv(r)
  {
    hide Winners, Entries;
    forall i | 0 <= i < |r.bits|
      ensures ItemOk(r, i)
    {
      assert ItemOk(s, i);
      match a {
        case Queue(t, j) => WinnersOne(s.queuers, t, r.queuers[t], i);
        case Enqueue(t) =>
          WinnersOne(s.queuers, t, Outside, i);
          EntriesBack(s.queue, s.queuers[t].item, i);
        case Work =>
          if s.worker.Idle? {
            EntriesFront(s.queue, i);
          }
      }
    }
  }

  function Exec(s: State, acts: seq<Action>): Option<State>
    decreases |acts|
  {
    if acts == [] then Some(s)
    else
      var r := Next(s, acts[0]);
      if r.None? then None else Exec(r.value, acts[1..])
  }

  lemma {:induction false} RunKeeps(s: State, acts: seq<Action>, r: State)
    requires Inv(s) && Exec(s, acts) == Some(r)
    ensures Inv(r)
    decreases |acts|
  {
    hide Inv, Next;
    if acts != [] {
      var m := Next(s, acts[0]).value;
      StepKeeps(s, acts[0], m);
      RunKeeps(m, acts[1..], r);
    }
  }

  lemma {:induction false} NoWinners(qs: seq<Queuer>, i: nat)
    requires forall t :: 0 <= t < |qs| ==> qs[t] == Outside
    ensures Winners(qs, i) == 0
  {
    if qs != [] {
      NoWinners(qs[..|qs| - 1], i);
    }
  }

  lemma Begins(s: State)
    requires Initial(s)
    ensures Inv(s)
  {
    forall i | 0 <= i < |s.bits|
      ensures ItemOk(s, i)
    {
      NoWinners(s.queuers, i);
    }
  }

  lemma FromInitial(s: State, acts: seq<Action>, r: State)
    requires Initial(s) && Exec(s, acts) == Some(r)
    ensures Inv(r)
  {
    hide Exec;
    Begins(s);
    RunKeeps(s, acts, r);
  }

  /** An item is in the queue at most once, in every interleaving. */
  lemma QueuedOnce(s: State, acts: seq<Action>, r: State, j: nat, k: nat)
    requires Initial(s) && Exec(s, acts) == Some(r) && j < k < |r.queue|
    ensures r.queue[j] != r.queue[k]
  {
    hide Exec, Winners, Entries;
    FromInitial(s, acts, r);
    assert ItemOk(r, r.queue[j]);
    if r.queue[j] == r.queue[k] {
      TwoEntries(r.queue, j, k);
    }
  }

  /** WORK_QUEUED is set exactly while one thread is about to enqueue the item, or it is queued, or
      the worker has dequeued it and not cleared the bit. */
  lemma BitIsExact(s: State, acts: seq<Action>, r: State, i: nat)
    requires Initial(s) && Exec(s, acts) == Some(r) && i < |r.bits|
    ensures Winners(r.queuers, i) + Entries(r.queue, i) + One(r.worker == Dequeued(i)) == One(r.bits[i])
  {
    hide Exec, Winners, Entries;
    FromInitial(s, acts, r);
    assert ItemOk(r, i);
  }

  lemma GrowStep(s: State, a: Action, r: State, i: nat, n: nat)
    requires Inv(s) && Next(s, a) == Some(r) && i < |s.bits| && s.owed[i] >= n && n <= s.starts[i] + 1
    ensures i < |r.bits| == |r.owed| == |r.starts| && r.owed[i] >= n && n <= r.starts[i] + 1
  {
    hide Winners, Entries;
    assert ItemOk(s, i);
  }

  lemma {:induction false} GrowRun(s: State, acts: seq<Action>, r: State, i: nat, n: nat)
    requires Inv(s) && Exec(s, acts) == Some(r) && i < |s.bits| && s.owed[i] >= n && n <= s.starts[i] + 1
    ensures i < |r.bits| == |r.owed| == |r.starts| && r.owed[i] >= n && n <= r.starts[i] + 1
    decreases |acts|
  {
    hide Inv, Next;
    Lengths(s);
    if acts != [] {
      var m := Next(s, acts[0]).value;
      GrowStep(s, acts[0], m, i, n);
      StepKeeps(s, acts[0], m);
      GrowRun(m, acts[1..], r, i, n);
    }
  }

  /** A queue_work call is never dropped: at any time after it, func has been started since the call,
      or WORK_QUEUED is still set, or the worker is about to start it. */
  lemma CallIsFollowed(s0: State, pre: seq<Action>, s: State, t: nat, i: nat, m: State, acts: seq<Action>, r: State)
    requires Initial(s0) && Exec(s0, pre) == Some(s)
    requires QueueWork(s, t, i) == Some(m) && Exec(m, acts) == Some(r)
    ensures i < |s.starts| && i < |r.starts| && i < |r.bits|
    ensures r.starts[i] > s.starts[i] || r.bits[i] || r.worker == Cleared(i)
  {
    hide Exec, Winners, Entries, Inv;
    FromInitial(s0, pre, s);
    StepKeeps(s, Queue(t, i), m);
    assert m.owed[i] == s.starts[i] + 1 && m.starts == s.starts;
    assert |m.bits| == |m.owed| == |m.starts| by { Lengths(m); }
    GrowRun(m, acts, r, i, s.starts[i] + 1);
    RunKeeps(m, acts, r);
    assert ItemOk(r, i) by { ItemAt(r, i); }
  }

  // ---- no start too many, and none out of turn ----

  /** How many queue_work calls of the run found the item's bit clear. */
  function Claims(s: State, acts: seq<Action>, i: nat): nat
    requires Exec(s, acts).Some?
    decreases |acts|
  {
    if acts == [] then 0
    else
      One(acts[0].Queue? && acts[0].i == i && i < |s.bits| && !s.bits[i])
      + Claims(Next(s, acts[0]).value, acts[1..], i)
  }

  /** The starts of an item's func and the places on its way to the next one. */
  function Accounted(s: State, i: nat): nat {
    (if i < |s.starts| then s.starts[i] else 0) + Places(s, i) + One(s.worker == Cleared(i))
  }

  lemma ClaimStep(s: State, a: Action, r: State, i: nat)
    requires Inv(s) && Next(s, a) == Some(r) && i < |s.bits|
    ensures i < |r.bits|
    ensures Accounted(r, i) == Accounted(s, i) + One(a.Queue? && a.i == i && !s.bits[i])
  {
    hide Winners, Entries;
    match a {
      case Queue(t, j) => WinnersOne(s.queuers, t, r.queuers[t], i);
      case Enqueue(t) =>
        WinnersOne(s.queuers, t, Outside, i);
        EntriesBack(s.queue, s.queuers[t].item, i);
      case Work =>
        if s.worker.Idle? {
          EntriesFront(s.queue, i);
        }
    }
  }

  lemma {:induction false} ClaimsRun(s: State, acts: seq<Action>, r: State, i: nat)
    requires Inv(s) && Exec(s, acts) == Some(r) && i < |s.bits|
    ensures Accounted(r, i) == Accounted(s, i) + Claims(s, acts, i)
    decreases |acts|
  {
    hide Inv, Next, Accounted;
    if acts != [] {
      var m := Next(s, acts[0]).value;
      StepKeeps(s, acts[0], m);
      ClaimStep(s, acts[0], m, i);
      ClaimsRun(m, acts[1..], r, i);
    }
  }

  /** A func has started once for every queue_work call that found its bit clear, but for the one
      start that is still to come while the item is on its way or the worker has just cleared its
      bit. */
  lemma StartsAreClaims(s: State, acts: seq<Action>, r: State, i: nat)
    requires Initial(s) && Exec(s, acts) == Some(r) && i < |s.bits|
    ensures i < |r.bits| && i < |r.starts|
    ensures r.starts[i] + One(r.bits[i]) + One(r.worker == Cleared(i)) == Claims(s, acts, i)
  {
    hide Exec, Claims, Winners, Entries;
    Begins(s);
    ClaimsRun(s, acts, r, i);
    FromInitial(s, acts, r);
    SameItems(s, acts, r);
    assert ItemOk(s, i) && ItemOk(r, i);
  }

  lemma {:induction false} SameItems(s: State, acts: seq<Action>, r: State)
    requires Exec(s, acts) == Some(r)
    ensures |r.bits| == |s.bits|
    decreases |acts|
  {
    if acts != [] {
      SameItems(Next(s, acts[0]).value, acts[1..], r);
    }
  }

  /** The items that the run puts into the queue, in order. */
  function Enqueued(s: State, acts: seq<Action>): seq<nat>
    requires Exec(s, acts).Some?
    decreases |acts|
  {
    if acts == [] then []
    else
      (if acts[0].Enqueue? then [s.queuers[acts[0].t].item] else []) + Enqueued(Next(s, acts[0]).value, acts[1..])
  }

  /** The items whose func the run starts, in order. */
  function Started(s: State, acts: seq<Action>): seq<nat>
    requires Exec(s, acts).Some?
    decreases |acts|
  {
    if acts == [] then []
    else
      (if acts[0].Work? && s.worker.Cleared? then [s.worker.item] else [])
      + Started(Next(s, acts[0]).value, acts[1..])
  }

  /** What the worker holds, before the queue. */
  function Pending(s: State): seq<nat> {
    (if s.worker.Idle? then [] else [s.worker.item]) + s.queue
  }

  lemma OrderStep(s: State, a: Action, r: State)
    requires Next(s, a) == Some(r)
    ensures Pending(s) + (if a.Enqueue? then [s.queuers[a.t].item] else []) ==
            (if a.Work? && s.worker.Cleared? then [s.worker.item] else []) + Pending(r)
  {
  }

  lemma {:induction false} OrderRun(s: State, acts: seq<Action>, r: State)
    requires Exec(s, acts) == Some(r)
    ensures Pending(s) + Enqueued(s, acts) == Started(s, acts) + Pending(r)
    decreases |acts|
  {
    if acts != [] {
      var m := Next(s, acts[0]).value;
      OrderRun(m, acts[1..], r);
      OrderStep(s, acts[0], m);
      hide Pending, Next;
      Regroup(Pending(s), if acts[0].Enqueue? then [s.queuers[acts[0].t].item] else [], Enqueued(m, acts[1..]),
              if acts[0].Work? && s.worker.Cleared? then [s.worker.item] else [], Pending(m),
              Started(m, acts[1..]), Pending(r));
    }
  }

  lemma Regroup(p: seq<nat>, x: seq<nat>, e: seq<nat>, y: seq<nat>, q: seq<nat>, t: seq<nat>, r: seq<nat>)
    requires p + x == y + q && q + e == t + r
    ensures p + (x + e) == (y + t) + r
  {
    assert p + (x + e) == (p + x) + e == y + (q + e);
  }

  /** First come, first served: the items whose funcs have started, the one that the worker holds and
      those that are queued are, in this order, the items enqueued so far. */
  lemma StartsInOrder(s: State, acts: seq<Action>, r: State)
    requires Initial(s) && Exec(s, acts) == Some(r)
    ensures Enqueued(s, acts) ==
            Started(s, acts) + (if r.worker.Idle? then [] else [r.worker.item]) + r.queue
  {
    hide Exec, Enqueued, Started;
    OrderRun(s, acts, r);
    assert Pending(s) == [] && [] + Enqueued(s, acts) == Enqueued(s, acts);
    assert Started(s, acts) + Pending(r) ==
           Started(s, acts) + (if r.worker.Idle? then [] else [r.worker.item]) + r.queue;
  }

  // ---- everything queued is started ----

  predicate OnlyWork(acts: seq<Action>) {
    forall k :: 0 <= k < |acts| ==> acts[k] == Work
  }

  predicate NobodyQueues(s: State) {
    forall t :: 0 <= t < |s.queuers| ==> s.queuers[t] == Outside
  }

  function WorkLeft(s: State): nat {
    3 * |s.queue| + match s.worker case Idle => 0 case Dequeued(_) => 2 case Cleared(_) => 1
  }

  lemma {:induction false} WorkerFinishes(s: State) returns (acts: seq<Action>, r: State)
    requires Inv(s) && NobodyQueues(s)
    ensures OnlyWork(acts) && |acts| == WorkLeft(s) && Exec(s, acts) == Some(r)
    ensures r.worker == Idle && r.queue == [] && NobodyQueues(r)
    decreases WorkLeft(s)
  {
    hide Winners, Entries, ItemOk;
    if s.worker == Idle && s.queue == [] {
      acts, r := [], s;
    } else {
      var m := WorkStep(s).value;
      StepKeeps(s, Work, m);
      var more;
      more, r := WorkerFinishes(m);
      acts := [Work] + more;
      assert acts[1..] == more;
    }
  }

  lemma {:induction false} NoClaims(s: State, acts: seq<Action>, i: nat)
    requires OnlyWork(acts) && Exec(s, acts).Some?
    ensures Claims(s, acts, i) == 0
    decreases |acts|
  {
    if acts != [] {
      NoClaims(Next(s, acts[0]).value, acts[1..], i);
    }
  }

  /** Once no thread is between claiming an item and enqueueing it, three steps of the worker for each
      queued item start all that is owed: every func has then started once for each call that found its
      bit clear, and no bit is set. */
  lemma EverythingStarts(s: State, acts: seq<Action>, m: State)
    requires Initial(s) && Exec(s, acts) == Some(m) && NobodyQueues(m)
    ensures exists more: seq<Action> :: OnlyWork(more) && |more| <= 3 * |m.queue| + 2 && Exec(m, more).Some?
              && var r := Exec(m, more).value;
                 && |r.bits| == |r.starts| == |s.bits|
                 && forall i: nat :: i < |s.bits| ==> !r.bits[i] && r.starts[i] == Claims(s, acts, i)
  {
    hide Exec, Inv, Claims, Winners, Entries;
    FromInitial(s, acts, m);
    Begins(s);
    var more, r := WorkerFinishes(m);
    RunKeeps(m, more, r);
    SameItems(s, acts, m);
    SameItems(m, more, r);
    Lengths(r);
    forall i: nat | i < |s.bits|
      ensures !r.bits[i] && r.starts[i] == Claims(s, acts, i)
    {
      StartsAreClaims(s, acts, m, i);
      ClaimsRun(s, acts, m, i);
      ClaimsRun(m, more, r, i);
      NoClaims(m, more, i);
      FinishedItem(r, i);
      FreshItem(s, i);
    }
  }

  lemma FinishedItem(s: State, i: nat)
    requires Inv(s) && s.worker == Idle && s.queue == [] && NobodyQueues(s) && i < |s.bits|
    ensures i < |s.starts| && !s.bits[i] && Accounted(s, i) == s.starts[i]
  {
    assert ItemOk(s, i);
    NoWinners(s.queuers, i);
  }

  lemma FreshItem(s: State, i: nat)
    requires Initial(s) && i < |s.bits|
    ensures Accounted(s, i) == 0
  {
    NoWinners(s.queuers, i);
  }

  lemma Lengths(s: State)
    requires Inv(s)
    ensures |s.bits| == |s.owed| == |s.starts|
  {
  }

  lemma ItemAt(s: State, i: nat)
    requires Inv(s) && i < |s.bits|
    ensures i < |s.starts| && i < |s.owed| && ItemOk(s, i)
  {
    hide ItemOk;
  }
}
