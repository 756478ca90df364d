/** The word that counts sync waiters and latches an IO error for them (shared/block.c:265-314,
    330-351): loads and compare-and-swaps of any number of threads interleave. */
module SyncWaiters {
  import opened Options

  const ERR: int := 1
  const INC: int := 2

  /** A syncing thread: not waiting; waiting; in sync_waiters_dec_error with the value it loaded; or
      gone with its result. hit says whether an error was latched while it was counted; no step
      reads it. */
  datatype Waiter =
    | Away
    | Waiting(hit: bool)
    | Leaving(hit: bool, seen: int)
    | Left(hit: bool, eio: bool)

  /** An IO completion in sync_waiters_set_error: idle, or holding the value it loaded. */
  datatype Setter = Quiet | Loaded(seen: int)

  datatype State = State(word: int, waiters: seq<Waiter>, setters: seq<Setter>)

  datatype Action =
    | Join(t: nat)
    | Load(t: nat)
    | Leave(t: nat)
    | SetLoad(k: nat)
    | SetSwap(k: nat)

  predicate Present(w: Waiter) {
    w.Waiting? || w.Leaving?
  }

  function Hit(w: Waiter): Waiter {
    match w
    case Waiting(_) => Waiting(true)
    case Leaving(_, seen) => Leaving(true, seen)
    case _ => w
  }

  function AllHit(ws: seq<Waiter>): (r: seq<Waiter>)
    ensures |r| == |ws|
    ensures forall t :: 0 <= t < |ws| ==> r[t] == Hit(ws[t])
  {
    seq(|ws|, t requires 0 <= t < |ws| => Hit(ws[t]))
  }

  /** The low bit and the rest. */
  predicate HasError(word: int) {
    word % 2 == 1
  }

  function WithError(word: int): int {
    if HasError(word) then word else word + ERR
  }

  /** What dec_error swaps in: one waiter fewer, and no error without waiters. */
  function Fewer(seen: int): int {
    if seen - INC == ERR then 0 else seen - INC
  }

  function Next(s: State, a: Action): Option<State> {
    match a
    case Join(t) =>
      if t < |s.waiters| && !Present(s.waiters[t]) then
        Some(s.(word := s.word + INC, waiters := s.waiters[t := Waiting(false)]))
      else None
    case Load(t) =>
      if t < |s.waiters| && Present(s.waiters[t]) then
        Some(s.(waiters := s.waiters[t := Leaving(s.waiters[t].hit, s.word)]))
      else None
    case Leave(t) =>
      if t < |s.waiters| && s.waiters[t].Leaving? then
        var w := s.waiters[t];
        if s.word == w.seen then
          Some(s.(word := Fewer(w.seen), waiters := s.waiters[t := Left(w.hit, HasError(w.seen))]))
        else Some(s.(waiters := s.waiters[t := Waiting(w.hit)]))
      else None
    case SetLoad(k) =>
      if k < |s.setters| then Some(s.(setters := s.setters[k := Loaded(s.word)])) else None
    case SetSwap(k) =>
      if k < |s.setters| && s.setters[k].Loaded? then
        var seen := s.setters[k].seen;
        if seen < INC then Some(s.(setters := s.setters[k := Quiet]))
        else if s.word == seen then
          Some(State(WithError(seen), AllHit(s.waiters), s.setters[k := Quiet]))
        else Some(s.(setters := s.setters[k := Loaded(s.word)]))
      else None
  }

  predicate Initial(s: State) {
    s.word == 0 && (forall t :: 0 <= t < |s.waiters| ==> s.waiters[t] == Away)
    && (forall k :: 0 <= k < |s.setters| ==> s.setters[k] == Quiet)
  }

  function Count(ws: seq<Waiter>): nat {
    if ws == [] then 0 else Count(ws[..|ws| - 1]) + if Present(ws[|ws| - 1]) then 1 else 0
  }

  /** The word is twice the number of waiters plus the error bit, there is no error without waiters,
      and whoever was counted when an error was latched still finds it or has returned it. */
  predicate Inv(s: State) {
    && (s.word == INC * Count(s.waiters) || s.word == INC * Count(s.waiters) + ERR)
    && (HasError(s.word) ==> Count(s.waiters) > 0)
    && (forall t :: 0 <= t < |s.waiters| && Present(s.waiters[t]) && s.waiters[t].hit ==> HasError(s.word))
    && (forall t :: 0 <= t < |s.waiters| && s.waiters[t].Left? && s.waiters[t].hit ==> s.waiters[t].eio)
  }

  lemma {:induction false} CountOne(ws: seq<Waiter>, t: nat, w: Waiter)
    requires t < |ws|
    ensures Count(ws[t := w]) ==
            Count(ws) - (if Present(ws[t]) then 1 else 0) + (if Present(w) then 1 else 0)
  {
    var n := |ws| - 1;
    if t < n {
      assert ws[t := w][..n] == ws[..n][t := w];
      CountOne(ws[..n], t, w);
    } else {
      assert ws[t := w][..n] == ws[..n];
    }
  }

  lemma {:induction false} CountHit(ws: seq<Waiter>)
    ensures Count(AllHit(ws)) == Count(ws)
  {
    if ws != [] {
      var n := |ws| - 1;
      CountHit(ws[..n]);
      assert AllHit(ws)[..n] == AllHit(ws[..n]);
    }
  }

  lemma {:induction false} PresentCounts(ws: seq<Waiter>, t: nat)
    requires t < |ws| && Present(ws[t])
    ensures Count(ws) > 0
  {
    if t < |ws| - 1 {
      PresentCounts(ws[..|ws| - 1], t);
    }
  }

  lemma {:induction false} LastPresent(ws: seq<Waiter>, t: nat, u: nat)
    requires t < |ws| && u < |ws| && Present(ws[t]) && Present(ws[u]) && Count(ws) == 1
    ensures t == u
  {
    var n := |ws| - 1;
    if t < n {
      PresentCounts(ws[..n], t);
    }
    if u < n {
      PresentCounts(ws[..n], u);
    }
    if t < n && u < n {
      LastPresent(ws[..n], t, u);
    }
  }

  lemma StepKeeps(s: State, a: Action, r: State)
    requires Inv(s) && Next(s, a) == Some(r)
    ensures Inv(r)
  {
    hide Count;
    match a
    case Join(t) => CountOne(s.waiters, t, r.waiters[t]);
    case Load(t) => CountOne(s.waiters, t, r.waiters[t]);
    case Leave(t) =>
      CountOne(s.waiters, t, r.waiters[t]);
      PresentCounts(s.waiters, t);
      if r.waiters[t].Left? && Count(s.waiters) == 1 {
        forall u | 0 <= u < |r.waiters|
          ensures !Present(r.waiters[u])
        {
          if Present(s.waiters[u]) {
            LastPresent(s.waiters, t, u);
          }
        }
      }
    case SetLoad(k) =>
    case SetSwap(k) => CountHit(s.waiters);
  }

  function Exec(s: State, acts: seq<Action>): Option<State>
    decreases |acts|
  {
    if acts == [] then Some(s)
    else
      var r := Next(s, acts[0]);
      if r.None? then None else Exec(r.value, acts[1..])
  }

  lemma {:induction false} RunKeeps(s: State, acts: seq<Action>, r: State)
    requires Inv(s) && Exec(s, acts) == Some(r)
    ensures Inv(r)
    decreases |acts|
  {
    hide Inv, Next;
    if acts != [] {
      var m := Next(s, acts[0]).value;
      StepKeeps(s, acts[0], m);
      RunKeeps(m, acts[1..], r);
    }
  }

  lemma {:induction false} NobodyYet(ws: seq<Waiter>)
    requires forall t :: 0 <= t < |ws| ==> ws[t] == Away
    ensures Count(ws) == 0
  {
    if ws != [] {
      NobodyYet(ws[..|ws| - 1]);
    }
  }

  lemma FromInitial(s: State, acts: seq<Action>, r: State)
    requires Initial(s) && Exec(s, acts) == Some(r)
    ensures Inv(r)
  {
    NobodyYet(s.waiters);
    RunKeeps(s, acts, r);
  }

  /** In every interleaving the word means what its readers take it to mean. */
  lemma WordIsExact(s: State, acts: seq<Action>, r: State)
    requires Initial(s) && Exec(s, acts) == Some(r)
    ensures r.word / INC == Count(r.waiters)
    ensures r.word == INC * Count(r.waiters) + (if HasError(r.word) then ERR else 0)
    ensures HasError(r.word) ==> Count(r.waiters) > 0
  {
    hide Count, Exec;
    FromInitial(s, acts, r);
  }

  /** A waiter that was counted when an error was latched returns it, however the loads and swaps
      of others interleave. */
  lemma HitWaiterReturnsError(s: State, acts: seq<Action>, r: State, t: nat)
    requires Initial(s) && Exec(s, acts) == Some(r) && t < |r.waiters|
    ensures r.waiters[t].Left? && r.waiters[t].hit ==> r.waiters[t].eio
    ensures Present(r.waiters[t]) && r.waiters[t].hit ==> HasError(r.word)
  {
    hide Count, Exec;
    FromInitial(s, acts, r);
  }

  /** The error bit goes exactly when the last waiter leaves, and comes only when there is one. */
  lemma ErrorClearsWithTheLast(s: State, a: Action, r: State)
    requires Inv(s) && Next(s, a) == Some(r)
    ensures HasError(s.word) && !HasError(r.word) <==>
            HasError(s.word) && Count(s.waiters) == 1 && Count(r.waiters) == 0
    ensures !HasError(s.word) && HasError(r.word) ==> a.SetSwap? && Count(s.waiters) > 0
  {
    hide Count;
    StepKeeps(s, a, r);
    match a
    case Join(t) => CountOne(s.waiters, t, r.waiters[t]);
    case Load(t) => CountOne(s.waiters, t, r.waiters[t]);
    case Leave(t) => CountOne(s.waiters, t, r.waiters[t]);
    case SetLoad(k) =>
    case SetSwap(k) => CountHit(s.waiters);
  }

  // ---- who returns an error ----

  /** The i-th step takes t out of the count for the last time, and the word it swapped carried the
      error exactly if eio. */
  predicate LeftWith(s: State, acts: seq<Action>, i: nat, t: nat, eio: bool) {
    && i < |acts| && acts[i] == Leave(t)
    && (forall j :: i < j < |acts| ==> acts[j] != Leave(t))
    && Exec(s, acts[..i]).Some?
    && var before := Exec(s, acts[..i]).value;
    && t < |before.waiters| && Present(before.waiters[t]) && (HasError(before.word) <==> eio)
  }

  lemma LeftWithLater(s: State, acts: seq<Action>, i: nat, t: nat, eio: bool)
    requires acts != [] && Next(s, acts[0]).Some? && LeftWith(Next(s, acts[0]).value, acts[1..], i, t, eio)
    ensures LeftWith(s, acts, i + 1, t, eio)
  {
    hide Next, Present, HasError;
    var l := acts[1..];
    assert acts[..i + 1][1..] == l[..i];
    forall j | i + 1 < j < |acts|
      ensures acts[j] != Leave(t)
    {
      assert acts[j] == l[j - 1];
    }
  }

  /** Once it has left, a waiter takes no step but joining again. */
  lemma {:induction false} StaysLeft(s: State, acts: seq<Action>, r: State, t: nat)
    requires Exec(s, acts) == Some(r) && t < |s.waiters| && !Present(s.waiters[t])
    requires forall j :: 0 <= j < |acts| ==> acts[j] != Leave(t)
    ensures t < |r.waiters| && (r.waiters[t].Left? ==> r.waiters[t] == s.waiters[t])
    decreases |acts|
  {
    if acts != [] {
      var m := Next(s, acts[0]).value;
      assert acts[0] != Leave(t);
      if m.waiters[t] == s.waiters[t] {
        StaysLeft(m, acts[1..], r, t);
      } else {
        StaysPresent(m, acts[1..], r, t);
      }
    }
  }

  lemma {:induction false} StaysPresent(s: State, acts: seq<Action>, r: State, t: nat)
    requires Exec(s, acts) == Some(r) && t < |s.waiters| && Present(s.waiters[t])
    requires forall j :: 0 <= j < |acts| ==> acts[j] != Leave(t)
    ensures t < |r.waiters| && Present(r.waiters[t])
    decreases |acts|
  {
    if acts != [] {
      assert acts[0] != Leave(t);
      StaysPresent(Next(s, acts[0]).value, acts[1..], r, t);
    }
  }

  lemma {:induction false} LeftByLeaving(s: State, acts: seq<Action>, r: State, t: nat)
    requires Exec(s, acts) == Some(r) && t < |s.waiters| && t < |r.waiters| && r.waiters[t].Left?
    requires exists j :: 0 <= j < |acts| && acts[j] == Leave(t)
    ensures exists i: nat :: LeftWith(s, acts, i, t, r.waiters[t].eio)
    decreases |acts|
  {
    var m, l := Next(s, acts[0]).value, acts[1..];
    if j: nat :| j < |l| && l[j] == Leave(t) {
      hide Next, LeftWith, HasError;
      WaitersStay(s, acts[..1], m);
      LeftByLeaving(m, l, r, t);
      var i: nat :| LeftWith(m, l, i, t, r.waiters[t].eio);
      LeftWithLater(s, acts, i, t, r.waiters[t].eio);
    } else {
      assert forall j :: 0 < j < |acts| ==> acts[j] == l[j - 1];
      if Present(m.waiters[t]) {
        StaysPresent(m, l, r, t);
      } else {
        StaysLeft(m, l, r, t);
      }
      assert Exec(s, acts[..0]) == Some(s);
      assert LeftWith(s, acts, 0, t, r.waiters[t].eio);
    }
  }

  lemma {:induction false} WaitersStay(s: State, acts: seq<Action>, r: State)
    requires Exec(s, acts) == Some(r)
    ensures |r.waiters| == |s.waiters|
    decreases |acts|
  {
    if acts != [] {
      WaitersStay(Next(s, acts[0]).value, acts[1..], r);
    }
  }

  /** sync returns -EIO exactly if the word carried the error while it was still counted, in the state
      in which it left. */
  lemma ReturnsErrorIff(s: State, acts: seq<Action>, r: State, t: nat)
    requires Initial(s) && Exec(s, acts) == Some(r) && t < |r.waiters| && r.waiters[t].Left?
    ensures exists i: nat :: LeftWith(s, acts, i, t, r.waiters[t].eio)
  {
    hide Exec, LeftWith, Next, HasError;
    WaitersStay(s, acts, r);
    if forall j :: 0 <= j < |acts| ==> acts[j] != Leave(t) {
      StaysLeft(s, acts, r, t);
    }
    LeftByLeaving(s, acts, r, t);
  }

  /** As long as no IO completion fails, no sync returns an error. */
  lemma NoFailureNoError(s: State, acts: seq<Action>, r: State, t: nat)
    requires Initial(s) && Exec(s, acts) == Some(r) && t < |r.waiters|
    requires forall j :: 0 <= j < |acts| ==> !acts[j].SetSwap?
    ensures r.waiters[t].Left? ==> !r.waiters[t].eio
  {
    hide Exec, LeftWith, Next;
    if r.waiters[t].Left? {
      ReturnsErrorIff(s, acts, r, t);
      var i: nat :| LeftWith(s, acts, i, t, r.waiters[t].eio);
      Before(s, acts, i, t, r.waiters[t].eio);
      NobodyYet(s.waiters);
      NoErrorYet(s, acts[..i], Exec(s, acts[..i]).value);
    }
  }

  lemma Before(s: State, acts: seq<Action>, i: nat, t: nat, eio: bool)
    requires LeftWith(s, acts, i, t, eio)
    ensures i < |acts| && Exec(s, acts[..i]).Some? && (HasError(Exec(s, acts[..i]).value.word) <==> eio)
  {
  }

  lemma {:induction false} NoErrorYet(s: State, acts: seq<Action>, r: State)
    requires Inv(s) && !HasError(s.word) && Exec(s, acts) == Some(r)
    requires forall j :: 0 <= j < |acts| ==> !acts[j].SetSwap?
    ensures !HasError(r.word)
    decreases |acts|
  {
    hide Inv, Next, HasError;
    if acts != [] {
      var m := Next(s, acts[0]).value;
      StepKeeps(s, acts[0], m);
      ErrorClearsWithTheLast(s, acts[0], m);
      NoErrorYet(m, acts[1..], r);
    }
  }

  // ---- every failed completion is latched for those who wait ----

  predicate PresentThroughout(s: State, acts: seq<Action>, t: nat)
    requires Exec(s, acts).Some?
    decreases |acts|
  {
    && t < |s.waiters| && Present(s.waiters[t])
    && (acts != [] ==> PresentThroughout(Next(s, acts[0]).value, acts[1..], t))
  }

  /** A completion holding a value with waiters in it, or the error already in the word. */
  predicate Latching(s: State, k: nat) {
    HasError(s.word) || (k < |s.setters| && s.setters[k].Loaded? && s.setters[k].seen >= INC)
  }

  lemma LatchingStays(s: State, a: Action, r: State, k: nat, t: nat)
    requires Inv(s) && Next(s, a) == Some(r) && Latching(s, k)
    requires t < |s.waiters| && Present(s.waiters[t]) && t < |r.waiters| && Present(r.waiters[t])
    ensures Latching(r, k)
  {
    hide Count;
    StepKeeps(s, a, r);
    ErrorClearsWithTheLast(s, a, r);
    PresentCounts(s.waiters, t);
    PresentCounts(r.waiters, t);
  }

  lemma {:induction false} LatchingRuns(s: State, acts: seq<Action>, r: State, k: nat, t: nat)
    requires Inv(s) && Latching(s, k) && Exec(s, acts) == Some(r) && PresentThroughout(s, acts, t)
    ensures Latching(r, k)
    decreases |acts|
  {
    hide Inv, Next, Latching, Present;
    if acts != [] {
      var m := Next(s, acts[0]).value;
      StepKeeps(s, acts[0], m);
      LatchingStays(s, acts[0], m, k, t);
      LatchingRuns(m, acts[1..], r, k, t);
    }
  }

  /** A failed completion that begins its set_error while t waits and is done with it while t still
      waits has put the error in the word, however the swaps of others interleave. */
  lemma FailureIsLatched(s: State, acts: seq<Action>, m: State, more: seq<Action>, r: State, k: nat, t: nat)
    requires Initial(s) && Exec(s, acts) == Some(m)
    requires more != [] && more[0] == SetLoad(k) && Exec(m, more) == Some(r) && PresentThroughout(m, more, t)
    requires k < |r.setters| && r.setters[k].Quiet?
    ensures HasError(r.word)
  {
    hide Inv, PresentThroughout, Count;
    FromInitial(s, acts, m);
    var n := Next(m, more[0]).value;
    StepKeeps(m, more[0], n);
    PresentFirst(m, more, t);
    LoadedSome(m, k, t);
    LatchingRuns(n, more[1..], r, k, t);
  }

  lemma PresentFirst(s: State, acts: seq<Action>, t: nat)
    requires Exec(s, acts).Some? && PresentThroughout(s, acts, t)
    ensures t < |s.waiters| && Present(s.waiters[t])
    ensures acts != [] ==> PresentThroughout(Next(s, acts[0]).value, acts[1..], t)
  {
    hide Next;
  }

  lemma LoadedSome(s: State, k: nat, t: nat)
    requires Inv(s) && k < |s.setters| && t < |s.waiters| && Present(s.waiters[t])
    ensures Next(s, SetLoad(k)).Some? && Latching(Next(s, SetLoad(k)).value, k)
  {
    hide Count;
    PresentCounts(s.waiters, t);
  }

  /** From then on t keeps waiting with the error in the word, or has returned it. */
  lemma {:induction false} LatchedIsReturned(s: State, acts: seq<Action>, r: State, t: nat)
    requires Inv(s) && HasError(s.word) && t < |s.waiters| && Present(s.waiters[t])
    requires Exec(s, acts) == Some(r) && (forall j :: 0 <= j < |acts| ==> acts[j] != Join(t))
    ensures t < |r.waiters|
    ensures (Present(r.waiters[t]) && HasError(r.word)) || (r.waiters[t].Left? && r.waiters[t].eio)
    decreases |acts|
  {
    hide Inv, Next, HasError;
    if acts != [] {
      var m := Next(s, acts[0]).value;
      assert acts[0] != Join(t);
      StepKeeps(s, acts[0], m);
      LatchedStep(s, acts[0], m, t);
      if Present(m.waiters[t]) {
        LatchedIsReturned(m, acts[1..], r, t);
      } else {
        LeftForGood(m, acts[1..], r, t);
      }
    }
  }

  lemma LatchedStep(s: State, a: Action, r: State, t: nat)
    requires Inv(s) && HasError(s.word) && t < |s.waiters| && Present(s.waiters[t]) && Next(s, a) == Some(r)
    ensures t < |r.waiters|
    ensures (Present(r.waiters[t]) && HasError(r.word)) || (r.waiters[t].Left? && r.waiters[t].eio)
  {
    hide Count, Inv;
    ErrorClearsWithTheLast(s, a, r);
    if Present(r.waiters[t]) {
      PresentCounts(r.waiters, t);
    }
  }

  lemma {:induction false} LeftForGood(s: State, acts: seq<Action>, r: State, t: nat)
    requires Exec(s, acts) == Some(r) && t < |s.waiters| && s.waiters[t].Left?
    requires forall j :: 0 <= j < |acts| ==> acts[j] != Join(t)
    ensures t < |r.waiters| && r.waiters[t] == s.waiters[t]
    decreases |acts|
  {
    if acts != [] {
      assert acts[0] != Join(t);
      LeftForGood(Next(s, acts[0]).value, acts[1..], r, t);
    }
  }

  // ---- nothing in the way ----

  /** A thread on its own leaves by two steps, and returns the error exactly if the word carries it. */
  lemma LeavesAlone(s: State, t: nat)
    requires t < |s.waiters| && Present(s.waiters[t])
    ensures var r := Exec(s, [Load(t), Leave(t)]);
            && r.Some? && t < |r.value.waiters|
            && r.value.waiters[t] == Left(s.waiters[t].hit, HasError(s.word))
  {
    var m := Next(s, Load(t)).value;
    var acts := [Load(t), Leave(t)];
    assert acts[1..] == [Leave(t)] && [Leave(t)][1..] == [];
    assert Exec(m, [Leave(t)]) == Exec(Next(m, Leave(t)).value, []);
  }

  /** A failed completion on its own latches the error by two steps exactly if somebody waits. */
  lemma LatchesAlone(s: State, k: nat)
    requires Inv(s) && k < |s.setters| && !HasError(s.word)
    ensures var r := Exec(s, [SetLoad(k), SetSwap(k)]);
            && r.Some? && k < |r.value.setters| && r.value.setters[k].Quiet?
            && (HasError(r.value.word) <==> Count(s.waiters) > 0)
  {
    hide Count, AllHit;
    var m := Next(s, SetLoad(k)).value;
    var r := Next(m, SetSwap(k)).value;
    assert k < |r.setters| && r.setters[k].Quiet? && (HasError(r.word) <==> Count(s.waiters) > 0);
    hide Next, HasError, Inv;
    assert [SetLoad(k), SetSwap(k)][1..] == [SetSwap(k)] && [SetSwap(k)][1..] == [];
    assert Exec(r, []) == Some(r);
  }
}
