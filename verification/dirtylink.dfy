/** Linking a block into a set before or after bl->set is published, as get_other_set is written
    (shared/block.c:752-797, shared/lk/list.h:118-121): any number of threads that all found bl->set
    empty race for one block. */
module DirtyLink {
  import opened Options

  /** Whether the thread adds the block to the set it is building, or to one it just allocated. */
  datatype Thread = Thread(existing: bool, phase: Phase)

  /** Linked: bl->set_head is in the new set's list, the cmpxchg is next. Published: the cmpxchg on
      behalf of the existing set succeeded, list_add_tail is next. Freed: the cmpxchg failed and the new
      set was freed. Retrying: it failed on behalf of the existing set. */
  datatype Phase = Trying | Linked | Published | Won | Freed | Retrying

  /** next and prev of every list_head: bl->set_head and, for each thread, the head of its set's list
      and the entry that was last in that list, which for an empty list is the head. */
  datatype State = State(next: seq<nat>, prev: seq<nat>, owner: Option<nat>, threads: seq<Thread>)

  const ENTRY: nat := 0

  function Head(t: nat): nat {
    2 * t + 1
  }

  function Tail(th: Thread, t: nat): nat {
    if th.existing then 2 * t + 2 else 2 * t + 1
  }

  predicate Sized(s: State) {
    |s.next| == |s.prev| == 2 * |s.threads| + 1
  }

  predicate Initial(s: State) {
    && Sized(s) && s.owner.None?
    && (forall t :: 0 <= t < |s.threads| ==>
          s.threads[t].phase.Trying? && s.next[Tail(s.threads[t], t)] == Head(t) && s.prev[Head(t)] == Tail(s.threads[t], t))
  }

  /** list_add_tail(&bl->set_head, head). */
  function AddTail(s: State, head: nat): (r: Option<State>)
    requires Sized(s) && head < |s.prev|
    ensures r.Some? ==> Sized(r.value)
  {
    var p := s.prev[head];
    if p < |s.next| then
      Some(s.(next := s.next[ENTRY := head][p := ENTRY], prev := s.prev[head := ENTRY][ENTRY := p]))
    else None
  }

  function Moved(s: State, t: nat, phase: Phase): (r: State)
    requires t < |s.threads|
    ensures Sized(s) ==> Sized(r)
  {
    s.(threads := s.threads[t := s.threads[t].(phase := phase)])
  }

  /** The next step of thread t. */
  function Step(s: State, t: nat): (r: Option<State>)
    requires Sized(s) && t < |s.threads|
    ensures r.Some? ==> Sized(r.value)
  {
    var th := s.threads[t];
    if (th.phase.Trying? && !th.existing) || th.phase.Published? then
      var added := AddTail(s, Head(t));
      if added.None? then None else Some(Moved(added.value, t, if th.existing then Won else Linked))
    else if (th.phase.Trying? && th.existing) || th.phase.Linked? then
      if s.owner.None? then Some(Moved(s.(owner := Some(t)), t, if th.existing then Published else Won))
      else Some(Moved(s, t, if th.existing then Retrying else Freed))
    else None
  }

  /** Whether that step is the list_add_tail. */
  predicate Links(s: State, t: nat) {
    t < |s.threads| && if s.threads[t].existing then s.threads[t].phase.Published? else s.threads[t].phase.Trying?
  }

  function Exec(s: State, order: seq<nat>): Option<State>
    requires Sized(s)
    decreases |order|
  {
    if order == [] then Some(s)
    else if order[0] >= |s.threads| then None
    else
      var r := Step(s, order[0]);
      if r.None? then None else Exec(r.value, order[1..])
  }

  /** The thread whose list_add_tail came last in the run, if any did; last before the run. */
  function LastLinker(s: State, order: seq<nat>, last: Option<nat>): Option<nat>
    requires Sized(s) && Exec(s, order).Some?
    decreases |order|
  {
    if order == [] then last
    else LastLinker(Step(s, order[0]).value, order[1..], if Links(s, order[0]) then Some(order[0]) else last)
  }

  predicate HasLinked(th: Thread) {
    if th.existing then th.phase.Won? else th.phase.Linked? || th.phase.Won? || th.phase.Freed?
  }

  /** What a thread's list looks like from its own end. */
  predicate ListOk(s: State, t: nat)
    requires Sized(s) && t < |s.threads|
  {
    var th := s.threads[t];
    && s.next[Tail(th, t)] == (if HasLinked(th) then ENTRY else Head(t))
    && s.prev[Head(t)] == (if HasLinked(th) then ENTRY else Tail(th, t))
  }

  predicate PhaseOk(s: State, t: nat, last: Option<nat>)
    requires t < |s.threads|
  {
    var th := s.threads[t];
    && (HasLinked(th) ==> last.Some?)
    && (th.phase.Won? || th.phase.Published? <==> s.owner == Some(t))
    && (th.phase.Linked? || th.phase.Freed? ==> !th.existing)
    && (th.phase.Published? || th.phase.Retrying? ==> th.existing)
  }

  /** And whose it is from the block's end. */
  predicate EntryOk(s: State, last: Option<nat>)
    requires Sized(s)
  {
    last.Some? ==>
      && last.value < |s.threads| && HasLinked(s.threads[last.value])
      && s.next[ENTRY] == Head(last.value) && s.prev[ENTRY] == Tail(s.threads[last.value], last.value)
  }

  ghost predicate Inv(s: State, last: Option<nat>) {
    && Sized(s) && EntryOk(s, last)
    && (forall t :: 0 <= t < |s.threads| ==> ListOk(s, t) && PhaseOk(s, t, last))
  }

  /** list_add_tail makes the block the last entry of that list and touches no other list. */
  lemma AddedLists(s: State, t: nat, r: State, u: nat)
    requires Sized(s) && t < |s.threads| && u < |s.threads| && ListOk(s, t) && !HasLinked(s.threads[t])
    requires AddTail(s, Head(t)) == Some(r)
    ensures r.threads == s.threads && r.owner == s.owner && Sized(r)
    ensures r.next[ENTRY] == Head(t) && r.prev[ENTRY] == Tail(s.threads[t], t)
    ensures r.next[Tail(s.threads[t], t)] == ENTRY && r.prev[Head(t)] == ENTRY
    ensures u != t ==> r.next[Tail(s.threads[u], u)] == s.next[Tail(s.threads[u], u)] && r.prev[Head(u)] == s.prev[Head(u)]
  {
  }

  lemma LinkKeeps(s: State, t: nat, r: State, last: Option<nat>)
    requires Inv(s, last) && Links(s, t) && Step(s, t) == Some(r)
    ensures Inv(r, Some(t))
  {
    hide AddTail, ListOk, Tail;
    var m := AddTail(s, Head(t)).value;
    assert ListOk(s, t) && PhaseOk(s, t, last);
    AddedLists(s, t, m, t);
    LinkedEntry(s, t, m, r);
    forall u | 0 <= u < |r.threads|
      ensures ListOk(r, u) && PhaseOk(r, u, Some(t))
    {
      assert ListOk(s, u) && PhaseOk(s, u, last);
      AddedLists(s, t, m, u);
      LinkedList(s, t, m, r, u);
    }
  }

  lemma LinkedEntry(s: State, t: nat, m: State, r: State)
    requires Sized(s) && Sized(m) && t < |s.threads| && m.threads == s.threads
    requires m.next[ENTRY] == Head(t) && m.prev[ENTRY] == Tail(s.threads[t], t)
    requires Links(s, t) && r == Moved(m, t, if s.threads[t].existing then Won else Linked)
    ensures EntryOk(r, Some(t))
  {
  }

  lemma LinkedList(s: State, t: nat, m: State, r: State, u: nat)
    requires Sized(s) && Sized(m) && t < |s.threads| && u < |s.threads| && m.threads == s.threads
    requires m.next[Tail(s.threads[t], t)] == ENTRY && m.prev[Head(t)] == ENTRY
    requires u != t ==> m.next[Tail(s.threads[u], u)] == s.next[Tail(s.threads[u], u)] && m.prev[Head(u)] == s.prev[Head(u)]
    requires ListOk(s, u) && Links(s, t) && r == Moved(m, t, if s.threads[t].existing then Won else Linked)
    ensures ListOk(r, u)
  {
  }

  lemma PublishKeeps(s: State, t: nat, r: State, last: Option<nat>)
    requires Inv(s, last) && t < |s.threads| && !Links(s, t) && Step(s, t) == Some(r)
    ensures Inv(r, last)
  {
    hide AddTail;
    assert PhaseOk(s, t, last);
    forall u | 0 <= u < |r.threads|
      ensures ListOk(r, u) && PhaseOk(r, u, last)
    {
      assert ListOk(s, u) && PhaseOk(s, u, last);
    }
  }

  lemma StepKeeps(s: State, t: nat, r: State, last: Option<nat>)
    requires Inv(s, last) && t < |s.threads| && Step(s, t) == Some(r)
    ensures Inv(r, if Links(s, t) then Some(t) else last)
  {
    hide Inv, Step, Links;
    if Links(s, t) {
      LinkKeeps(s, t, r, last);
    } else {
      PublishKeeps(s, t, r, last);
    }
  }

  lemma {:induction false} RunKeeps(s: State, order: seq<nat>, r: State, last: Option<nat>)
    requires Inv(s, last) && Exec(s, order) == Some(r)
    ensures Inv(r, LastLinker(s, order, last))
    decreases |order|
  {
    hide Inv, Step, Links;
    if order != [] {
      InvSized(s, last);
      var m := Step(s, order[0]).value;
      StepKeeps(s, order[0], m, last);
      RunKeeps(m, order[1..], r, if Links(s, order[0]) then Some(order[0]) else last);
    }
  }

  lemma StartHolds(s: State)
    requires Initial(s)
    ensures Inv(s, None)
  {
  }

  lemma InvSized(s: State, last: Option<nat>)
    requires Inv(s, last)
    ensures Sized(s)
  {
  }

  /** The block is the last entry of thread t's list, read in both directions. */
  predicate Sits(s: State, t: nat)
    requires Sized(s) && t < |s.threads|
  {
    && s.next[Tail(s.threads[t], t)] == ENTRY && s.next[ENTRY] == Head(t)
    && s.prev[Head(t)] == ENTRY && s.prev[ENTRY] == Tail(s.threads[t], t)
  }

  /** In every interleaving, the set that bl->set names holds the block in its list exactly when the
      thread that published it was also the last to link it. */
  lemma WinnerHoldsIff(s: State, order: seq<nat>, r: State, w: nat)
    requires Initial(s) && Exec(s, order) == Some(r) && Sized(r)
    requires w < |r.threads| && r.threads[w].phase.Won?
    ensures r.owner == Some(w)
    ensures Sits(r, w) <==> LastLinker(s, order, None) == Some(w)
  {
    hide Exec, LastLinker, Step;
    StartHolds(s);
    RunKeeps(s, order, r, None);
    var last := LastLinker(s, order, None);
    assert ListOk(r, w) && PhaseOk(r, w, last);
    if last.Some? {
      assert ListOk(r, last.value) && PhaseOk(r, last.value, last);
    }
  }

  /** Otherwise the winner's list still leads to the block, and the block leads into the set of the
      last linker, which is a set that lost or is about to lose. */
  lemma LoserHoldsTheBlock(s: State, order: seq<nat>, r: State, w: nat)
    requires Initial(s) && Exec(s, order) == Some(r) && Sized(r)
    requires w < |r.threads| && r.threads[w].phase.Won? && LastLinker(s, order, None) != Some(w)
    ensures r.next[Tail(r.threads[w], w)] == ENTRY
    ensures var u := LastLinker(s, order, None);
            && u.Some? && u.value < |r.threads| && u.value != w && r.next[ENTRY] == Head(u.value)
            && (r.threads[u.value].phase.Linked? || r.threads[u.value].phase.Freed?)
  {
    hide Exec, LastLinker, Step;
    StartHolds(s);
    RunKeeps(s, order, r, None);
    var last := LastLinker(s, order, None);
    assert ListOk(r, w) && PhaseOk(r, w, last);
    if last.Some? {
      assert ListOk(r, last.value) && PhaseOk(r, last.value, last);
    }
  }

  /** Two threads with new sets: both link, the first publishes, the second frees its set. The list of
      the set that was published leads through the block into freed memory. */
  lemma BlockLeadsToFreedSet()
    ensures var th := Thread(false, Trying);
            var s := State([0, 1, 2, 3, 4], [0, 1, 2, 3, 4], None, [th, th]);
            && Initial(s) && Exec(s, [0, 1, 0, 1]).Some?
            && var r := Exec(s, [0, 1, 0, 1]).value;
               && Sized(r) && |r.threads| == 2 && r.owner == Some(0)
               && r.threads[0].phase.Won? && r.threads[1].phase.Freed?
               && r.next[Head(0)] == ENTRY && r.next[ENTRY] == Head(1) && !Sits(r, 0)
  {
    var th := Thread(false, Trying);
    var s := State([0, 1, 2, 3, 4], [0, 1, 2, 3, 4], None, [th, th]);
    var s1 := Step(s, 0).value;
    var s2 := Step(s1, 1).value;
    var s3 := Step(s2, 0).value;
    var s4 := Step(s3, 1).value;
    assert [0, 1, 0, 1][1..] == [1, 0, 1] && [1, 0, 1][1..] == [0, 1] && [0, 1][1..] == [1] && [1][1..] == [];
    assert Exec(s3, [1]) == Some(s4);
    assert Exec(s2, [0, 1]) == Some(s4);
    assert Exec(s1, [1, 0, 1]) == Some(s4);
  }
}
