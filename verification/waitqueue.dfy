/** wait_event, wake_up and the waitqueue_active shortcut (shared/lk/wait.h:46-89,
    shared/block.c:185-192): any number of waiters and wakers share one queue, each with a condition
    of its own. */
module WaitQueue {
  import opened Options

  /** c is the condition the waiter is after. Checked: nr_waiting was raised, ctr loaded from
      wake_counter, and the condition found false after that. Asleep: in the futex, entered with
      wake_counter still ctr. */
  datatype Waiter =
    | Idle
    | First(c: nat)
    | Raised(c: nat)
    | Loaded(c: nat, ctr: nat)
    | Checked(c: nat, ctr: nat)
    | Asleep(c: nat, ctr: nat)
    | Lowering(c: nat)
    | Past(c: nat)

  /** A waker that made condition c true and still has to wake: shortcut if it tests
      waitqueue_active first. */
  datatype Waker =
    | Rest
    | Made(c: nat, shortcut: bool)
    | Active(c: nat)
    | Bumped(c: nat)
    | Calling(c: nat)

  datatype State = State(
    conds: seq<bool>, nrWaiting: int, wakeCounter: nat, waiters: seq<Waiter>, wakers: seq<Waker>)

  datatype Action =
    | Arrive(w: nat, c: nat)
    | Wait(w: nat)
    | Interrupt(w: nat)
    | Make(k: nat, c: nat, shortcut: bool)
    | Wake(k: nat)
    | Unmake(c: nat)

  function Woken(ws: seq<Waiter>): (r: seq<Waiter>)
    ensures |r| == |ws|
    ensures forall w :: 0 <= w < |ws| ==> r[w] == if ws[w].Asleep? then Raised(ws[w].c) else ws[w]
  {
    seq(|ws|, w requires 0 <= w < |ws| => if ws[w].Asleep? then Raised(ws[w].c) else ws[w])
  }

  predicate Holds(s: State, c: nat) {
    c < |s.conds| && s.conds[c]
  }

  function Moved(s: State, w: nat, pc: Waiter): State
    requires w < |s.waiters|
  {
    s.(waiters := s.waiters[w := pc])
  }

  /** One step of wait_event. */
  function WaitStep(s: State, w: nat): Option<State>
    requires w < |s.waiters|
  {
    match s.waiters[w]
    case First(c) =>
      if Holds(s, c) then Some(Moved(s, w, Past(c)))
      else Some(Moved(s.(nrWaiting := s.nrWaiting + 1), w, Raised(c)))
    case Raised(c) => Some(Moved(s, w, Loaded(c, s.wakeCounter)))
    case Loaded(c, ctr) => Some(Moved(s, w, if Holds(s, c) then Lowering(c) else Checked(c, ctr)))
    case Checked(c, ctr) => Some(Moved(s, w, if s.wakeCounter == ctr then Asleep(c, ctr) else Raised(c)))
    case Lowering(c) => Some(Moved(s.(nrWaiting := s.nrWaiting - 1), w, Past(c)))
    case _ => None
  }

  /** One step of clear_bit_and_wake_up after the condition was made true, or of wake_up. */
  function WakeStep(s: State, k: nat): Option<State>
    requires k < |s.wakers|
  {
    match s.wakers[k]
    case Made(c, shortcut) =>
      Some(s.(wakers := s.wakers[k := if shortcut && s.nrWaiting == 0 then Rest else Active(c)]))
    case Active(c) => Some(s.(wakeCounter := s.wakeCounter + 1, wakers := s.wakers[k := Bumped(c)]))
    case Bumped(c) => Some(s.(wakers := s.wakers[k := if s.nrWaiting > 0 then Calling(c) else Rest]))
    case Calling(c) => Some(s.(waiters := Woken(s.waiters), wakers := s.wakers[k := Rest]))
    case Rest => None
  }

  function Next(s: State, a: Action): Option<State> {
    match a
    case Arrive(w, c) =>
      if w < |s.waiters| && (s.waiters[w].Idle? || s.waiters[w].Past?) then Some(Moved(s, w, First(c))) else None
    case Wait(w) => if w < |s.waiters| then WaitStep(s, w) else None
    case Interrupt(w) =>
      if w < |s.waiters| && s.waiters[w].Asleep? then Some(Moved(s, w, Raised(s.waiters[w].c))) else None
    case Make(k, c, shortcut) =>
      if k < |s.wakers| && s.wakers[k].Rest? && c < |s.conds| then
        Some(s.(conds := s.conds[c := true], wakers := s.wakers[k := Made(c, shortcut)]))
      else None
    case Wake(k) => if k < |s.wakers| then WakeStep(s, k) else None
    case Unmake(c) => if c < |s.conds| then Some(s.(conds := s.conds[c := false])) else None
  }

  predicate Initial(s: State) {
    && s.nrWaiting == 0
    && (forall w :: 0 <= w < |s.waiters| ==> s.waiters[w] == Idle)
    && (forall k :: 0 <= k < |s.wakers| ==> s.wakers[k] == Rest)
  }

  /** The waiters that nr_waiting counts. */
  predicate Counted(w: Waiter) {
    w.Raised? || w.Loaded? || w.Checked? || w.Asleep? || w.Lowering?
  }

  function Count(ws: seq<Waiter>): nat {
    if ws == [] then 0 else Count(ws[..|ws| - 1]) + if Counted(ws[|ws| - 1]) then 1 else 0
  }

  /** Someone has made c true and has yet to raise wake_counter. */
  ghost predicate WillBump(s: State, c: nat) {
    exists k :: 0 <= k < |s.wakers| && ((s.wakers[k].Made? && s.wakers[k].c == c) || s.wakers[k] == Active(c))
  }

  /** Someone has made c true and has yet to finish waking. */
  ghost predicate WillWake(s: State, c: nat) {
    exists k :: 0 <= k < |s.wakers| && !s.wakers[k].Rest? && s.wakers[k].c == c
  }

  ghost predicate WaiterOk(s: State, w: Waiter) {
    match w
    case Checked(c, ctr) =>
      ctr <= s.wakeCounter && (Holds(s, c) ==> ctr < s.wakeCounter || WillBump(s, c))
    case Asleep(c, ctr) => Holds(s, c) ==> WillWake(s, c)
    case Loaded(c, ctr) => ctr <= s.wakeCounter
    case _ => true
  }

  ghost predicate Inv(s: State) {
    && s.nrWaiting == Count(s.waiters)
    && (forall w :: 0 <= w < |s.waiters| ==> WaiterOk(s, s.waiters[w]))
  }

  lemma {:induction false} CountOne(ws: seq<Waiter>, w: nat, pc: Waiter)
    requires w < |ws|
    ensures Count(ws[w := pc]) == Count(ws) - (if Counted(ws[w]) then 1 else 0) + (if Counted(pc) then 1 else 0)
  {
    var n := |ws| - 1;
    if w < n {
      assert ws[w := pc][..n] == ws[..n][w := pc];
      CountOne(ws[..n], w, pc);
    } else {
      assert ws[w := pc][..n] == ws[..n];
    }
  }

  lemma {:induction false} CountWoken(ws: seq<Waiter>)
    ensures Count(Woken(ws)) == Count(ws)
  {
    if ws != [] {
      var n := |ws| - 1;
      CountWoken(ws[..n]);
      assert Woken(ws)[..n] == Woken(ws[..n]);
    }
  }

  lemma {:induction false} CountedCounts(ws: seq<Waiter>, w: nat)
    requires w < |ws| && Counted(ws[w])
    ensures Count(ws) > 0
  {
    if w < |ws| - 1 {
      CountedCounts(ws[..|ws| - 1], w);
    }
  }

  lemma WaitKeeps(s: State, w: nat, r: State)
    requires Inv(s) && w < |s.waiters| && WaitStep(s, w) == Some(r)
    ensures Inv(r)
  {
    hide Count;
    CountOne(s.waiters, w, r.waiters[w]);
    forall v | 0 <= v < |r.waiters|
      ensures WaiterOk(r, r.waiters[v])
    {
      var c := if s.waiters[v].Idle? then 0 else s.waiters[v].c;
      assert WaiterOk(s, s.waiters[v]);
      assert WillBump(s, c) ==> WillBump(r, c) && WillWake(r, c);
      assert WillWake(s, c) ==> WillWake(r, c);
    }
  }

  /** A waker that still has a counted waiter before it does not give up. */
  lemma WakeKeeps(s: State, k: nat, r: State)
    requires Inv(s) && k < |s.wakers| && WakeStep(s, k) == Some(r)
    ensures Inv(r)
  {
    hide Count;
    CountWoken(s.waiters);
    forall v | 0 <= v < |r.waiters|
      ensures WaiterOk(r, r.waiters[v])
    {
      assert WaiterOk(s, s.waiters[v]);
      if Counted(s.waiters[v]) {
        CountedCounts(s.waiters, v);
        var c := s.waiters[v].c;
        if WillBump(s, c) {
          var j :| 0 <= j < |s.wakers| && ((s.wakers[j].Made? && s.wakers[j].c == c) || s.wakers[j] == Active(c));
          assert r.wakers[j].Rest? || r.wakers[j].c == c;
        }
        if WillWake(s, c) {
          var j :| 0 <= j < |s.wakers| && !s.wakers[j].Rest? && s.wakers[j].c == c;
          assert r.wakers[j].Rest? || r.wakers[j].c == c;
        }
      }
    }
  }

  lemma MakeKeeps(s: State, k: nat, c: nat, shortcut: bool, r: State)
    requires Inv(s) && Next(s, Make(k, c, shortcut)) == Some(r)
    ensures Inv(r)
  {
    hide Count;
    assert r.wakers[k] == Made(c, shortcut);
    forall v | 0 <= v < |r.waiters|
      ensures WaiterOk(r, r.waiters[v])
    {
      assert WaiterOk(s, s.waiters[v]);
      if Counted(s.waiters[v]) {
        var d := s.waiters[v].c;
        if d != c && WillBump(s, d) {
          var j :| 0 <= j < |s.wakers| && ((s.wakers[j].Made? && s.wakers[j].c == d) || s.wakers[j] == Active(d));
          assert r.wakers[j] == s.wakers[j];
        }
        if d != c && WillWake(s, d) {
          var j :| 0 <= j < |s.wakers| && !s.wakers[j].Rest? && s.wakers[j].c == d;
          assert r.wakers[j] == s.wakers[j];
        }
      }
    }
  }

  lemma StepKeeps(s: State, a: Action, r: State)
    requires Inv(s) && Next(s, a) == Some(r)
    ensures Inv(r)
  {
    hide Count, WaitStep, WakeStep;
    match a
    case Wait(w) => WaitKeeps(s, w, r);
    case Wake(k) => WakeKeeps(s, k, r);
    case Make(k, c, shortcut) => MakeKeeps(s, k, c, shortcut, r);
    case Arrive(w, c) =>
      CountOne(s.waiters, w, r.waiters[w]);
      Elsewhere(s, r);
    case Interrupt(w) =>
      CountOne(s.waiters, w, r.waiters[w]);
      Elsewhere(s, r);
    case Unmake(c) => Elsewhere(s, r);
  }

  /** Steps that touch no waker and make no condition true. */
  lemma Elsewhere(s: State, r: State)
    requires Inv(s) && r.wakers == s.wakers && r.wakeCounter == s.wakeCounter && |r.waiters| == |s.waiters|
    requires forall w :: 0 <= w < |s.waiters| ==>
               r.waiters[w] == s.waiters[w] || r.waiters[w].First? || r.waiters[w].Raised?
    requires forall c: nat :: Holds(r, c) ==> Holds(s, c)
    ensures forall w :: 0 <= w < |r.waiters| ==> WaiterOk(r, r.waiters[w])
  {
    hide Count;
    forall w | 0 <= w < |r.waiters|
      ensures WaiterOk(r, r.waiters[w])
    {
      assert WaiterOk(s, s.waiters[w]);
      if Counted(r.waiters[w]) {
        var c := r.waiters[w].c;
        assert WillBump(s, c) ==> WillBump(r, c);
        assert WillWake(s, c) ==> WillWake(r, c);
      }
    }
  }

  function Exec(s: State, acts: seq<Action>): Option<State>
    decreases |acts|
  {
    if acts == [] then Some(s)
    else
      var r := Next(s, acts[0]);
      if r.None? then None else Exec(r.value, acts[1..])
  }

  lemma {:induction false} RunKeeps(s: State, acts: seq<Action>, r: State)
    requires Inv(s) && Exec(s, acts) == Some(r)
    ensures Inv(r)
    decreases |acts|
  {
    hide Inv, Next;
    if acts != [] {
      var m := Next(s, acts[0]).value;
      StepKeeps(s, acts[0], m);
      RunKeeps(m, acts[1..], r);
    }
  }

  lemma {:induction false} NobodyYet(ws: seq<Waiter>)
    requires forall w :: 0 <= w < |ws| ==> ws[w] == Idle
    ensures Count(ws) == 0
  {
    if ws != [] {
      NobodyYet(ws[..|ws| - 1]);
    }
  }

  /** How many steps of its own a waker has left before it rests. */
  function StepsLeft(k: Waker): nat {
    match k
    case Rest => 0
    case Made(_, _) => 4
    case Active(_) => 3
    case Bumped(_) => 2
    case Calling(_) => 1
  }

  function WakesBy(acts: seq<Action>, k: nat): nat {
    if acts == [] then 0 else WakesBy(acts[1..], k) + if acts[0] == Wake(k) then 1 else 0
  }

  /** Somewhere along the run waiter w is not asleep. */
  predicate Wakens(s: State, acts: seq<Action>, w: nat)
    requires w < |s.waiters| && Exec(s, acts).Some?
    decreases |acts|
  {
    || !s.waiters[w].Asleep?
    || (acts != [] && w < |Next(s, acts[0]).value.waiters| && Wakens(Next(s, acts[0]).value, acts[1..], w))
  }

  /** While someone sleeps a waker goes through: none of its own steps lets it rest early, nobody
      else's step changes it, and its last one wakes everyone. */
  lemma SleeperDrivesWaker(s: State, a: Action, r: State, k: nat, w: nat)
    requires Inv(s) && Next(s, a) == Some(r) && k < |s.wakers| && !s.wakers[k].Rest?
    requires w < |s.waiters| && s.waiters[w].Asleep?
    ensures k < |r.wakers| && w < |r.waiters|
    ensures r.waiters[w].Asleep? ==>
              && !r.wakers[k].Rest?
              && StepsLeft(s.wakers[k]) == StepsLeft(r.wakers[k]) + if a == Wake(k) then 1 else 0
  {
    hide Count;
    CountedCounts(s.waiters, w);
  }

  lemma {:induction false} WakerWakens(s: State, acts: seq<Action>, k: nat, w: nat)
    requires Inv(s) && Exec(s, acts).Some? && k < |s.wakers| && !s.wakers[k].Rest?
    requires w < |s.waiters| && WakesBy(acts, k) >= StepsLeft(s.wakers[k])
    ensures Wakens(s, acts, w)
    decreases |acts|
  {
    hide Inv, Next;
    if s.waiters[w].Asleep? && acts != [] {
      var m := Next(s, acts[0]).value;
      StepKeeps(s, acts[0], m);
      SleeperDrivesWaker(s, acts[0], m, k, w);
      if m.waiters[w].Asleep? {
        WakerWakens(m, acts[1..], k, w);
      }
    }
  }

  /** Waker k made c true, and in every run from here in which it takes the at most four steps it
      still has, interleaved with any steps of the others, w does not sleep on. */
  ghost predicate Rescues(s: State, k: nat, c: nat, w: nat)
    requires w < |s.waiters|
  {
    && k < |s.wakers| && !s.wakers[k].Rest? && s.wakers[k].c == c
    && forall acts: seq<Action> ::
         Exec(s, acts).Some? && WakesBy(acts, k) >= StepsLeft(s.wakers[k]) ==> Wakens(s, acts, w)
  }

  /** No wakeup is lost: in every interleaving, while a waiter sleeps and its condition is true, some
      thread that made that condition true has yet to finish its wake_up, and cannot finish it without
      waking the waiter: neither shortcut is taken too early. */
  lemma NoLostWakeup(s: State, acts: seq<Action>, r: State, w: nat)
    requires Initial(s) && Exec(s, acts) == Some(r) && w < |r.waiters|
    requires r.waiters[w].Asleep? && Holds(r, r.waiters[w].c)
    ensures exists k: nat :: Rescues(r, k, r.waiters[w].c, w)
  {
    hide Exec, Count, Next;
    NobodyYet(s.waiters);
    RunKeeps(s, acts, r);
    assert WaiterOk(r, r.waiters[w]);
    var c := r.waiters[w].c;
    var k: nat :| 0 <= k < |r.wakers| && !r.wakers[k].Rest? && r.wakers[k].c == c;
    forall more: seq<Action> | Exec(r, more).Some? && WakesBy(more, k) >= StepsLeft(r.wakers[k])
      ensures Wakens(r, more, w)
    {
      WakerWakens(r, more, k, w);
    }
    assert Rescues(r, k, c, w);
  }

  /** A waker makes the futex call exactly if some waiter is between its two updates of nr_waiting, and
      leaves the counter alone exactly if it tests first and none is. */
  lemma WakerWorksIff(s: State, acts: seq<Action>, m: State, k: nat, r: State)
    requires Initial(s) && Exec(s, acts) == Some(m) && k < |m.wakers| && Next(m, Wake(k)) == Some(r)
    ensures k < |r.wakers|
    ensures m.wakers[k].Made? ==> (r.wakers[k].Rest? <==> m.wakers[k].shortcut && Count(m.waiters) == 0)
    ensures m.wakers[k].Active? ==> r.wakeCounter == m.wakeCounter + 1 && r.wakers[k].Bumped?
    ensures m.wakers[k].Bumped? ==> (if Count(m.waiters) > 0 then r.wakers[k].Calling? else r.wakers[k].Rest?)
  {
    hide Exec, Count;
    NrWaitingIsExact(s, acts, m);
  }

  // ---- when a waiter may leave, and when it must ----

  /** Condition c holds in some state of the run. */
  predicate HeldSometime(s: State, acts: seq<Action>, c: nat)
    requires Exec(s, acts).Some?
    decreases |acts|
  {
    Holds(s, c) || (acts != [] && HeldSometime(Next(s, acts[0]).value, acts[1..], c))
  }

  /** Condition c holds in every state of the run. */
  predicate HeldThroughout(s: State, acts: seq<Action>, c: nat)
    requires Exec(s, acts).Some?
    decreases |acts|
  {
    Holds(s, c) && (acts != [] ==> HeldThroughout(Next(s, acts[0]).value, acts[1..], c))
  }

  /** In wait_event for c and not yet past its last test. */
  predicate Testing(w: Waiter, c: nat) {
    (w.First? || w.Raised? || w.Loaded? || w.Checked? || w.Asleep?) && w.c == c
  }

  predicate Arrives(a: Action, w: nat) {
    a.Arrive? && a.w == w
  }

  /** One step leaves a testing waiter testing unless its condition holds. */
  lemma StaysTesting(s: State, a: Action, r: State, w: nat, c: nat)
    requires Next(s, a) == Some(r) && w < |s.waiters| && Testing(s.waiters[w], c)
    ensures w < |r.waiters| && (Testing(r.waiters[w], c) || Holds(s, c))
  {
  }

  lemma {:induction false} LeavesOnlyHeld(s: State, acts: seq<Action>, r: State, w: nat, c: nat)
    requires Exec(s, acts) == Some(r) && w < |s.waiters| && Testing(s.waiters[w], c)
    ensures w < |r.waiters| && !Testing(r.waiters[w], c) ==> HeldSometime(s, acts, c)
    decreases |acts|
  {
    hide Next, Testing;
    if acts != [] {
      var m := Next(s, acts[0]).value;
      StaysTesting(s, acts[0], m, w, c);
      if !Holds(s, c) {
        LeavesOnlyHeld(m, acts[1..], r, w, c);
      }
    }
  }

  /** The i-th step is w's last arrival, for c, and c holds in some state of the run after it. */
  predicate HeldSince(s: State, acts: seq<Action>, i: nat, w: nat, c: nat) {
    && i < |acts| && acts[i] == Arrive(w, c)
    && (forall j :: i < j < |acts| ==> !Arrives(acts[j], w))
    && Exec(s, acts[..i + 1]).Some?
    && Exec(Exec(s, acts[..i + 1]).value, acts[i + 1..]).Some?
    && HeldSometime(Exec(s, acts[..i + 1]).value, acts[i + 1..], c)
  }

  lemma HeldSinceLater(s: State, acts: seq<Action>, i: nat, w: nat, c: nat)
    requires acts != [] && Next(s, acts[0]).Some? && HeldSince(Next(s, acts[0]).value, acts[1..], i, w, c)
    ensures HeldSince(s, acts, i + 1, w, c)
  {
    hide Next, HeldSometime;
    var t := acts[1..];
    assert acts[..i + 2][1..] == t[..i + 1] && acts[i + 2..] == t[i + 1..];
    forall j | i + 1 < j < |acts|
      ensures !Arrives(acts[j], w)
    {
      assert acts[j] == t[j - 1];
    }
  }

  /** The condition a waiter asks for is the one it arrived for. */
  lemma {:induction false} StaysAsked(s: State, acts: seq<Action>, r: State, w: nat, c: nat)
    requires Exec(s, acts) == Some(r) && w < |s.waiters| && !s.waiters[w].Idle? && s.waiters[w].c == c
    requires forall j :: 0 <= j < |acts| ==> !Arrives(acts[j], w)
    ensures w < |r.waiters| && !r.waiters[w].Idle? && r.waiters[w].c == c
    decreases |acts|
  {
    if acts != [] {
      var m := Next(s, acts[0]).value;
      assert !Arrives(acts[0], w);
      StaysAsked(m, acts[1..], r, w, c);
    }
  }

  lemma {:induction false} ArrivedAndHeld(s: State, acts: seq<Action>, r: State, w: nat)
    requires Exec(s, acts) == Some(r) && w < |r.waiters| && r.waiters[w].Past?
    requires exists j :: 0 <= j < |acts| && Arrives(acts[j], w)
    ensures exists i: nat :: HeldSince(s, acts, i, w, r.waiters[w].c)
    decreases |acts|
  {
    hide HeldSometime, HeldSince;
    var m, t := Next(s, acts[0]).value, acts[1..];
    if j: nat :| j < |t| && Arrives(t[j], w) {
      hide Next;
      ArrivedAndHeld(m, t, r, w);
      var i: nat :| HeldSince(m, t, i, w, r.waiters[w].c);
      HeldSinceLater(s, acts, i, w, r.waiters[w].c);
    } else {
      assert forall j :: 0 < j < |acts| ==> acts[j] == t[j - 1];
      var c := acts[0].c;
      StaysAsked(m, t, r, w, c);
      LeavesOnlyHeld(m, t, r, w, c);
      FirstArrivalHeld(s, acts, w, c);
    }
  }

  lemma FirstArrivalHeld(s: State, acts: seq<Action>, w: nat, c: nat)
    requires acts != [] && acts[0] == Arrive(w, c) && Next(s, acts[0]).Some?
    requires forall j :: 0 < j < |acts| ==> !Arrives(acts[j], w)
    requires Exec(Next(s, acts[0]).value, acts[1..]).Some?
    requires HeldSometime(Next(s, acts[0]).value, acts[1..], c)
    ensures HeldSince(s, acts, 0, w, c)
  {
    hide Next, HeldSometime;
    assert acts[..1] == [acts[0]] && acts[..1][1..] == [];
    assert Exec(Next(s, acts[0]).value, []) == Some(Next(s, acts[0]).value);
  }

  lemma {:induction false} IdleUntilArrival(s: State, acts: seq<Action>, r: State, w: nat)
    requires Exec(s, acts) == Some(r) && w < |s.waiters| && s.waiters[w].Idle?
    requires forall j :: 0 <= j < |acts| ==> !Arrives(acts[j], w)
    ensures w < |r.waiters| && r.waiters[w].Idle?
    decreases |acts|
  {
    if acts != [] {
      assert !Arrives(acts[0], w);
      IdleUntilArrival(Next(s, acts[0]).value, acts[1..], r, w);
    }
  }

  lemma {:induction false} WaitersStay(s: State, acts: seq<Action>, r: State)
    requires Exec(s, acts) == Some(r)
    ensures |r.waiters| == |s.waiters|
    decreases |acts|
  {
    if acts != [] {
      WaitersStay(Next(s, acts[0]).value, acts[1..], r);
    }
  }

  /** wait_event returns only with its condition: in every interleaving, a waiter that has returned saw
      the condition it arrived for hold at some moment since it arrived. */
  lemma ReturnsOnlyHeld(s: State, acts: seq<Action>, r: State, w: nat)
    requires Initial(s) && Exec(s, acts) == Some(r) && w < |r.waiters| && r.waiters[w].Past?
    ensures exists i: nat :: HeldSince(s, acts, i, w, r.waiters[w].c)
  {
    hide Exec, HeldSince, Next;
    WaitersStay(s, acts, r);
    if forall j :: 0 <= j < |acts| ==> !Arrives(acts[j], w) {
      IdleUntilArrival(s, acts, r, w);
    }
    ArrivedAndHeld(s, acts, r, w);
  }

  /** How many steps of its own an awake waiter takes to return while its condition holds. */
  function TestsLeft(w: Waiter): nat {
    match w
    case First(_) => 1
    case Raised(_) => 3
    case Loaded(_, _) => 2
    case Lowering(_) => 1
    case _ => 0
  }

  function WaitsBy(acts: seq<Action>, w: nat): nat {
    if acts == [] then 0 else WaitsBy(acts[1..], w) + if acts[0] == Wait(w) then 1 else 0
  }

  /** Somewhere along the run waiter w has returned. */
  predicate Returns(s: State, acts: seq<Action>, w: nat)
    requires w < |s.waiters| && Exec(s, acts).Some?
    decreases |acts|
  {
    || s.waiters[w].Past?
    || (acts != [] && w < |Next(s, acts[0]).value.waiters| && Returns(Next(s, acts[0]).value, acts[1..], w))
  }

  predicate AwakeFor(w: Waiter, c: nat) {
    (w.First? || w.Raised? || w.Loaded? || w.Lowering?) && w.c == c
  }

  lemma HeldDrivesWaiter(s: State, a: Action, r: State, w: nat, c: nat)
    requires Next(s, a) == Some(r) && w < |s.waiters| && AwakeFor(s.waiters[w], c) && Holds(s, c)
    ensures w < |r.waiters| && (r.waiters[w].Past? || AwakeFor(r.waiters[w], c))
    ensures TestsLeft(s.waiters[w]) == TestsLeft(r.waiters[w]) + if a == Wait(w) then 1 else 0
  {
  }

  /** wait_event does return: an awake waiter whose condition holds returns by its own next steps, at
      most three, whatever the others do in between, and does not go to sleep again. With
      NoLostWakeup, so does a sleeper, once woken. */
  lemma {:induction false} HeldReturns(s: State, acts: seq<Action>, w: nat, c: nat)
    requires Exec(s, acts).Some? && w < |s.waiters| && AwakeFor(s.waiters[w], c)
    requires HeldThroughout(s, acts, c) && WaitsBy(acts, w) >= TestsLeft(s.waiters[w])
    ensures Returns(s, acts, w)
    decreases |acts|
  {
    hide Next;
    if acts != [] {
      var m := Next(s, acts[0]).value;
      HeldDrivesWaiter(s, acts[0], m, w, c);
      if !m.waiters[w].Past? {
        HeldReturns(m, acts[1..], w, c);
      }
    }
  }

  /** nr_waiting counts the waiters between their two updates of it. */
  lemma NrWaitingIsExact(s: State, acts: seq<Action>, r: State)
    requires Initial(s) && Exec(s, acts) == Some(r)
    ensures r.nrWaiting == Count(r.waiters)
  {
    hide Exec, Count;
    NobodyYet(s.waiters);
    RunKeeps(s, acts, r);
  }
}
