/** Who may touch a trace buffer, and what of it gets written (shared/trace.c:69-165, 167-263): threads
    store into their own buffers inside RCU read sections, any thread may flush, and one thread writes. */
module Trace {
  import opened Options
  import opened Tally

  const BUF_SIZE: nat := 32768

  /** A byte of a buffer, by the store it came from and its place in that event. */
  datatype Cell = Never | Of(store: nat, i: nat)

  /** Where a store puts its event. The code has it at the start of the buffer, at tbuf->ptr, which
      nothing ever moves; the repair is to put it behind what the buffer holds, at tbuf->ptr + len. */
  datatype Placement = AtStart | AtEnd

  /** Positions of a thread. Look to Storing are trace_store_ptr and the caller's store of n bytes,
      header and padding included; FLoad to FEnq are trace_flush at thread u. Outside of Out a thread
      is in a read section. */
  datatype Pc =
    | Out
    | Look(n: nat)
    | Retire(b: nat, n: nat)
    | Enq(b: nat, n: nat)
    | MoveOn(b: nat, n: nat)
    | NextBuf(n: nat)
    | Storing(b: nat, n: nat)
    | Leave
    | FLoad(u: nat)
    | FMark(u: nat, b: nat)
    | FEnq(u: nat, b: nat)

  /** bufs is the thread's list, storing its storing_buf. */
  datatype Thread = Thread(pc: Pc, bufs: seq<nat>, storing: Option<nat>)

  /** area is the memory at ptr. written and stored are all bytes ever written from and stored into the
      buffer, piled says whether a store ever found some in it; no step reads these three. */
  datatype Buffer = Buffer(writing: bool, len: nat, area: seq<Cell>, written: seq<Cell>, stored: seq<Cell>, piled: bool)

  /** Grace holds the threads whose read sections synchronize_rcu waits out. */
  datatype Writer =
    | Asleep
    | Spliced
    | Grace(waits: set<nat>)
    | Writing(todo: seq<nat>)
    | Draining
    | Clearing(b: nat)

  /** queue is the shared queue, private the writer's own. stores numbers the stores. */
  datatype State = State(
    place: Placement, threads: seq<Thread>, bufs: seq<Buffer>, queue: seq<nat>, private: seq<nat>, writer: Writer,
    stores: nat)

  datatype Action = Trace(t: nat, len: nat) | Flush(t: nat) | Step(t: nat) | Write

  /** What an event of len bytes takes: its header and the bytes rounded up to eight. */
  function Total(len: nat): (n: nat)
    ensures n >= 8
  {
    8 + (len + 7) / 8 * 8
  }

  predicate InRange(ids: seq<nat>, n: nat) {
    forall k :: 0 <= k < |ids| ==> ids[k] < n
  }

  function Touches(pc: Pc): seq<nat> {
    match pc
    case Retire(b, _) => [b]
    case Enq(b, _) => [b]
    case MoveOn(b, _) => [b]
    case Storing(b, _) => [b]
    case FMark(_, b) => [b]
    case FEnq(_, b) => [b]
    case _ => []
  }

  predicate Typed(s: State) {
    && (forall t :: 0 <= t < |s.threads| ==>
          && InRange(s.threads[t].bufs, |s.bufs|) && InRange(Touches(s.threads[t].pc), |s.bufs|)
          && (s.threads[t].storing.Some? ==> s.threads[t].storing.value < |s.bufs|))
    && (forall b :: 0 <= b < |s.bufs| ==> |s.bufs[b].area| == BUF_SIZE && s.bufs[b].len <= BUF_SIZE)
    && InRange(s.queue, |s.bufs|) && InRange(s.private, |s.bufs|)
    && (s.writer.Writing? ==> InRange(s.writer.todo, |s.bufs|))
    && (s.writer.Clearing? ==> s.writer.b < |s.bufs|)
  }

  function At(s: State, t: nat, pc: Pc): State
    requires t < |s.threads|
  {
    s.(threads := s.threads[t := s.threads[t].(pc := pc)])
  }

  function WithBuf(s: State, b: nat, buf: Buffer): State
    requires b < |s.bufs|
  {
    s.(bufs := s.bufs[b := buf])
  }

  /** list_move_tail. */
  function ToTail(ids: seq<nat>, b: nat): seq<nat> {
    if ids == [] then []
    else if ids[0] == b then ids[1..] + [b]
    else [ids[0]] + ToTail(ids[1..], b)
  }

  /** test_and_set_bit(TB_WRITING). */
  function Mark(s: State, t: nat, b: nat, won: Pc, lost: Pc): State
    requires t < |s.threads| && b < |s.bufs|
  {
    if s.bufs[b].writing then At(s, t, lost)
    else At(WithBuf(s, b, s.bufs[b].(writing := true)), t, won)
  }

  /** The bytes of store k. */
  function Cells(k: nat, n: nat): (r: seq<Cell>)
    ensures |r| == n && forall i :: 0 <= i < n ==> r[i] == Of(k, i)
  {
    seq(n, i requires 0 <= i < n => Of(k, i))
  }

  function Put(area: seq<Cell>, off: nat, e: seq<Cell>): (r: seq<Cell>)
    requires off + |e| <= |area|
    ensures |r| == |area|
    ensures forall i :: 0 <= i < |area| ==> r[i] == if off <= i < off + |e| then e[i - off] else area[i]
  {
    area[..off] + e + area[off + |e|..]
  }

  /** The buffer after store k of n bytes. AtStart is trace_store_ptr as written, AtEnd the repair; len
      grows wherever the event went. */
  function Stored(buf: Buffer, place: Placement, k: nat, n: nat): Buffer
    requires buf.len + n <= |buf.area|
  {
    var off := if place.AtStart? then 0 else buf.len;
    buf.(len := buf.len + n, area := Put(buf.area, off, Cells(k, n)), stored := buf.stored + Cells(k, n),
         piled := buf.piled || buf.len > 0)
  }

  function ThreadStep(s: State, t: nat): Option<State>
    requires Typed(s) && t < |s.threads|
  {
    var th := s.threads[t];
    match th.pc
    case Out => None
    case Look(n) =>
      if th.storing.None? then Some(At(s, t, NextBuf(n)))
      else
        var b := th.storing.value;
        var buf := s.bufs[b];
        Some(At(s, t, if buf.len + n > BUF_SIZE || buf.writing then Retire(b, n) else Storing(b, n)))
    case Retire(b, n) =>
      assert Touches(th.pc)[0] == b;
      Some(Mark(s, t, b, Enq(b, n), MoveOn(b, n)))
    case Enq(b, n) => Some(At(s.(queue := s.queue + [b]), t, MoveOn(b, n)))
    case MoveOn(b, n) =>
      Some(s.(threads := s.threads[t := Thread(NextBuf(n), ToTail(th.bufs, b), None)]))
    case NextBuf(n) =>
      if th.bufs == [] || s.bufs[th.bufs[0]].writing then Some(At(s, t, Leave))
      else
        var b := th.bufs[0];
        Some(s.(threads := s.threads[t := Thread(Storing(b, n), th.bufs, Some(b))]))
    case Storing(b, n) =>
      assert Touches(th.pc)[0] == b;
      if s.bufs[b].len + n > BUF_SIZE then None
      else Some(At(WithBuf(s, b, Stored(s.bufs[b], s.place, s.stores, n)).(stores := s.stores + 1), t, Leave))
    case Leave =>
      var s1 := At(s, t, Out);
      Some(if s.writer.Grace? then s1.(writer := Grace(s.writer.waits - {t})) else s1)
    case FLoad(u) =>
      if u >= |s.threads| then Some(At(s, t, Leave))
      else if s.threads[u].storing.None? then Some(At(s, t, FLoad(u + 1)))
      else Some(At(s, t, FMark(u, s.threads[u].storing.value)))
    case FMark(u, b) =>
      assert Touches(th.pc)[0] == b;
      Some(Mark(s, t, b, FEnq(u, b), FLoad(u + 1)))
    case FEnq(u, b) => Some(At(s.(queue := s.queue + [b]), t, FLoad(u + 1)))
  }

  /** The threads in a read section now. */
  function Reading(s: State): set<nat> {
    set t | 0 <= t < |s.threads| && !s.threads[t].pc.Out?
  }

  function WriteStep(s: State): Option<State>
    requires Typed(s)
  {
    match s.writer
    case Asleep => Some(s.(private := s.queue, queue := [], writer := Spliced))
    case Spliced => Some(s.(writer := Grace(Reading(s))))
    case Grace(waits) => if waits == {} then Some(s.(writer := Writing(s.private))) else None
    case Writing(todo) =>
      if todo == [] then Some(s.(writer := Draining))
      else
        var b := todo[0];
        var buf := s.bufs[b];
        Some(WithBuf(s, b, buf.(written := buf.written + buf.area[..buf.len])).(writer := Writing(todo[1..])))
    case Draining =>
      if s.private == [] then Some(s.(writer := Asleep))
      else Some(s.(private := s.private[1..], writer := Clearing(s.private[0])))
    case Clearing(b) =>
      Some(WithBuf(s, b, s.bufs[b].(writing := false, len := 0)).(writer := Draining))
  }

  function Next(s: State, a: Action): Option<State>
    requires Typed(s)
  {
    match a
    case Trace(t, len) =>
      if t < |s.threads| && s.threads[t].pc.Out? && Total(len) <= BUF_SIZE then Some(At(s, t, Look(Total(len)))) else None
    case Flush(t) => if t < |s.threads| && s.threads[t].pc.Out? then Some(At(s, t, FLoad(0))) else None
    case Step(t) => if t < |s.threads| then ThreadStep(s, t) else None
    case Write => WriteStep(s)
  }

  /** Every buffer is in the list of one thread; nothing is stored or marked. */
  predicate Initial(s: State) {
    && (forall t :: 0 <= t < |s.threads| ==>
          s.threads[t].pc == Out && s.threads[t].storing.None? && InRange(s.threads[t].bufs, |s.bufs|))
    && Disjoint(s.threads)
    && (forall b :: 0 <= b < |s.bufs| ==> s.bufs[b] == Buffer(false, 0, Unused(), [], [], false))
    && s.queue == [] && s.private == [] && s.writer == Asleep
  }

  function Unused(): (r: seq<Cell>)
    ensures |r| == BUF_SIZE && forall i :: 0 <= i < BUF_SIZE ==> r[i] == Never
  {
    seq(BUF_SIZE, _ => Never)
  }

  predicate Disjoint(ths: seq<Thread>) {
    forall t, u, b :: 0 <= t < |ths| && 0 <= u < |ths| && b in ths[t].bufs && b in ths[u].bufs ==> t == u
  }

  // ---- the invariant ----

  predicate Marked(pc: Pc, b: nat) {
    (pc.Enq? || pc.FEnq?) && pc.b == b
  }

  function Markers(ths: seq<Thread>, b: nat): nat {
    if ths == [] then 0 else Markers(ths[..|ths| - 1], b) + One(Marked(ths[|ths| - 1].pc, b))
  }

  /** In how many places a marked buffer is: about to be enqueued, in the shared queue, in the
      writer's list, or in the writer's hand. */
  function Places(s: State, b: nat): nat {
    Markers(s.threads, b) + Entries(s.queue, b) + Entries(s.private, b) + One(s.writer == Clearing(b))
  }

  /** The buffers past the grace period and not cleared yet. */
  predicate Owned(s: State, b: nat) {
    ((s.writer.Writing? || s.writer.Draining? || s.writer.Clearing?) && b in s.private) || s.writer == Clearing(b)
  }

  /** Written out in this round already. */
  predicate Flushed(s: State, b: nat) {
    Owned(s, b) && (s.writer.Writing? ==> b !in s.writer.todo)
  }

  predicate BufOk(s: State, b: nat)
    requires b < |s.bufs|
  {
    Places(s, b) == One(s.bufs[b].writing)
  }

  predicate ThreadOk(s: State, t: nat)
    requires t < |s.threads|
  {
    var th := s.threads[t];
    && (th.storing.Some? ==> th.storing.value in th.bufs)
    && (th.pc.Retire? || th.pc.Enq? || th.pc.MoveOn? || th.pc.Storing? ==> th.storing == Some(th.pc.b))
    && (th.pc.Storing? ==> !Owned(s, th.pc.b))
    && (th.pc.Storing? && s.writer.Grace? && th.pc.b in s.private ==> t in s.writer.waits)
    && RoomOk(th, s.bufs)
  }

  /** A thread's unmarked buffers are empty but for the one it stores into, and the next event fits. */
  predicate RoomOk(th: Thread, bufs: seq<Buffer>) {
    && (th.pc.Look? || th.pc.Retire? || th.pc.Enq? || th.pc.MoveOn? || th.pc.NextBuf? || th.pc.Storing? ==>
          0 < th.pc.n <= BUF_SIZE)
    && (th.pc.NextBuf? ==> th.storing.None?)
    && (th.pc.Storing? && th.pc.b < |bufs| ==> bufs[th.pc.b].len + th.pc.n <= BUF_SIZE)
    && (forall x :: x in th.bufs && x < |bufs| && !bufs[x].writing && bufs[x].len > 0 ==>
          th.storing == Some(x) && !(th.pc.Enq? || th.pc.MoveOn?))
  }

  predicate WriterOk(s: State) {
    && (s.writer.Asleep? ==> s.private == [])
    && (s.writer.Writing? ==> forall k :: 0 <= k < |s.writer.todo| ==> s.writer.todo[k] in s.private)
    && (s.writer.Writing? ==> forall j, k :: 0 <= j < k < |s.writer.todo| ==> s.writer.todo[j] != s.writer.todo[k])
  }

  predicate Inv(s: State) {
    && Typed(s) && Disjoint(s.threads) && WriterOk(s)
    && (forall b :: 0 <= b < |s.bufs| ==> BufOk(s, b))
    && (forall t :: 0 <= t < |s.threads| ==> ThreadOk(s, t))
  }

  lemma {:induction false} MarkersOne(ths: seq<Thread>, t: nat, th: Thread, b: nat)
    requires t < |ths|
    ensures Markers(ths[t := th], b) == Markers(ths, b) - One(Marked(ths[t].pc, b)) + One(Marked(th.pc, b))
  {
    var n := |ths| - 1;
    if t < n {
      assert ths[t := th][..n] == ths[..n][t := th];
      MarkersOne(ths[..n], t, th, b);
    } else {
      assert ths[t := th][..n] == ths[..n];
    }
  }

  lemma {:induction false} ToTailSame(ids: seq<nat>, b: nat)
    ensures |ToTail(ids, b)| == |ids|
    ensures forall x :: x in ToTail(ids, b) <==> x in ids
  {
    if ids != [] {
      assert ids == [ids[0]] + ids[1..];
      if ids[0] != b {
        ToTailSame(ids[1..], b);
      }
    }
  }

  /** list_move_tail puts the buffer last and keeps the others' order: a thread comes back to a retired
      buffer only after all its others. */
  lemma {:induction false} ToTailMoves(ids: seq<nat>, b: nat) returns (i: nat)
    requires b in ids
    ensures i < |ids| && ids[i] == b && b !in ids[..i] && ToTail(ids, b) == ids[..i] + ids[i + 1..] + [b]
  {
    if ids[0] == b {
      i := 0;
    } else {
      var t := ids[1..];
      var k := ToTailMoves(t, b);
      i := k + 1;
      assert ids[..i] == [ids[0]] + t[..k] && ids[i + 1..] == t[k + 1..];
      assert [ids[0]] + (t[..k] + t[k + 1..] + [b]) == ids[..i] + ids[i + 1..] + [b];
    }
  }

  /** A marked buffer is somewhere; an owned one is marked. */
  lemma OwnedIsMarked(s: State, b: nat)
    requires Inv(s) && b < |s.bufs| && (b in s.private || s.writer == Clearing(b) || b in s.queue)
    ensures s.bufs[b].writing
  {
    hide Markers, Entries;
    assert BufOk(s, b);
    EntriesIn(s.private, b);
    EntriesIn(s.queue, b);
  }

  // ---- steps of threads ----

  /** A thread that marks nothing and whose list keeps its buffers. */
  ghost predicate Kept(th: Thread, after: Thread, n: nat) {
    && (forall b: nat :: Marked(after.pc, b) <==> Marked(th.pc, b))
    && (forall b :: b in after.bufs <==> b in th.bufs)
    && InRange(after.bufs, n) && InRange(Touches(after.pc), n) && (after.storing.Some? ==> after.storing.value < n)
  }

  /** Nothing else changes, but that a grace period may lose the thread. */
  lemma Moves(s: State, t: nat, th: Thread, w: Writer)
    requires Inv(s) && t < |s.threads| && Kept(s.threads[t], th, |s.bufs|)
    requires w == s.writer || (s.writer.Grace? && w == Grace(s.writer.waits - {t}) && !th.pc.Storing?)
    requires ThreadOk(s.(threads := s.threads[t := th], writer := w), t)
    ensures Inv(s.(threads := s.threads[t := th], writer := w))
  {
    hide Markers, Entries;
    var r := s.(threads := s.threads[t := th], writer := w);
    forall b | 0 <= b < |r.bufs|
      ensures BufOk(r, b)
    {
      assert BufOk(s, b);
      MarkersOne(s.threads, t, th, b);
    }
    forall u | 0 <= u < |r.threads|
      ensures ThreadOk(r, u)
    {
      assert ThreadOk(s, u);
    }
  }

  /** test_and_set_bit on a buffer that was not marked. */
  lemma MarkKeeps(s: State, t: nat, b: nat, pc: Pc)
    requires Inv(s) && t < |s.threads| && b < |s.bufs| && !s.bufs[b].writing
    requires (s.threads[t].pc.Retire? && s.threads[t].pc.b == b && pc == Enq(b, s.threads[t].pc.n))
          || (s.threads[t].pc.FMark? && pc == FEnq(s.threads[t].pc.u, b))
    ensures Inv(At(WithBuf(s, b, s.bufs[b].(writing := true)), t, pc))
  {
    hide Markers, Entries;
    var r := At(WithBuf(s, b, s.bufs[b].(writing := true)), t, pc);
    assert ThreadOk(s, t);
    forall c | 0 <= c < |r.bufs|
      ensures BufOk(r, c)
    {
      assert BufOk(s, c);
      MarkersOne(s.threads, t, r.threads[t], c);
    }
    forall u | 0 <= u < |r.threads|
      ensures ThreadOk(r, u)
    {
      assert ThreadOk(s, u);
    }
  }

  lemma EnqueueKeeps(s: State, t: nat, b: nat, pc: Pc)
    requires Inv(s) && t < |s.threads| && b < |s.bufs|
    requires (s.threads[t].pc.Enq? && s.threads[t].pc.b == b && pc == MoveOn(b, s.threads[t].pc.n))
          || (s.threads[t].pc.FEnq? && s.threads[t].pc.b == b && pc == FLoad(s.threads[t].pc.u + 1))
    ensures Inv(At(s.(queue := s.queue + [b]), t, pc))
  {
    hide Markers, Entries;
    var r := At(s.(queue := s.queue + [b]), t, pc);
    assert ThreadOk(s, t);
    forall c | 0 <= c < |r.bufs|
      ensures BufOk(r, c)
    {
      assert BufOk(s, c);
      MarkersOne(s.threads, t, r.threads[t], c);
      EntriesBack(s.queue, b, c);
    }
    forall u | 0 <= u < |r.threads|
      ensures ThreadOk(r, u)
    {
      assert ThreadOk(s, u);
    }
  }

  /** A store goes to a buffer the writer does not own, and fits. */
  lemma StoreKeeps(s: State, t: nat, b: nat, n: nat)
    requires Inv(s) && t < |s.threads| && b < |s.bufs| && s.threads[t].pc == Storing(b, n)
    ensures s.bufs[b].len + n <= BUF_SIZE == |s.bufs[b].area|
    ensures Inv(At(WithBuf(s, b, Stored(s.bufs[b], s.place, s.stores, n)).(stores := s.stores + 1), t, Leave))
  {
    hide Markers, Entries, Put;
    assert ThreadOk(s, t);
    var r := At(WithBuf(s, b, Stored(s.bufs[b], s.place, s.stores, n)).(stores := s.stores + 1), t, Leave);
    forall c | 0 <= c < |r.bufs|
      ensures BufOk(r, c)
    {
      assert BufOk(s, c);
      MarkersOne(s.threads, t, r.threads[t], c);
    }
    forall u | 0 <= u < |r.threads|
      ensures ThreadOk(r, u)
    {
      assert ThreadOk(s, u);
      if u != t {
        assert b !in s.threads[u].bufs;
      }
    }
  }

  /** The steps of trace_store_ptr and of its caller's store. */
  lemma StorerKeeps(s: State, t: nat, r: State)
    requires Inv(s) && t < |s.threads| && ThreadStep(s, t) == Some(r)
    requires var pc := s.threads[t].pc; pc.Look? || pc.NextBuf? || pc.MoveOn? || pc.Storing? || pc.Leave?
    ensures Inv(r)
  {
    hide Markers, Entries, Inv;
    InvAt(s, t);
    var th := s.threads[t];
    match th.pc {
      case Look(n) =>
        if th.storing.Some? {
          FreeToStore(s, th.storing.value);
        }
        Moves(s, t, r.threads[t], s.writer);
      case MoveOn(b, n) =>
        ToTailSame(th.bufs, b);
        SameRange(th.bufs, ToTail(th.bufs, b), |s.bufs|);
        Moves(s, t, r.threads[t], s.writer);
      case NextBuf(n) =>
        if th.bufs != [] {
          FreeToStore(s, th.bufs[0]);
        }
        Moves(s, t, r.threads[t], s.writer);
      case Storing(b, n) =>
        assert Touches(th.pc)[0] == b;
        StoreKeeps(s, t, b, n);
      case Leave => Moves(s, t, th.(pc := Out), r.writer);
    }
  }

  /** The steps of try_enqueue_writing and trace_flush. */
  lemma MarkerKeeps(s: State, t: nat, r: State)
    requires Inv(s) && t < |s.threads| && ThreadStep(s, t) == Some(r)
    requires var pc := s.threads[t].pc; pc.Retire? || pc.Enq? || pc.FLoad? || pc.FMark? || pc.FEnq?
    ensures Inv(r)
  {
    hide Markers, Entries, Inv;
    InvAt(s, t);
    var th := s.threads[t];
    match th.pc {
      case Retire(b, n) =>
        assert Touches(th.pc)[0] == b;
        if s.bufs[b].writing {
          Moves(s, t, th.(pc := MoveOn(b, n)), s.writer);
        } else {
          MarkKeeps(s, t, b, Enq(b, n));
        }
      case Enq(b, n) =>
        assert Touches(th.pc)[0] == b;
        EnqueueKeeps(s, t, b, MoveOn(b, n));
      case FLoad(u) =>
        if u < |s.threads| {
          InvAt(s, u);
        }
        Moves(s, t, r.threads[t], s.writer);
      case FMark(u, b) =>
        assert Touches(th.pc)[0] == b;
        if s.bufs[b].writing {
          Moves(s, t, th.(pc := FLoad(u + 1)), s.writer);
        } else {
          MarkKeeps(s, t, b, FEnq(u, b));
        }
      case FEnq(u, b) =>
        assert Touches(th.pc)[0] == b;
        EnqueueKeeps(s, t, b, FLoad(u + 1));
    }
  }

  lemma ThreadKeeps(s: State, t: nat, r: State)
    requires Inv(s) && t < |s.threads| && ThreadStep(s, t) == Some(r)
    ensures Inv(r)
  {
    hide Inv;
    var pc := s.threads[t].pc;
    if pc.Look? || pc.NextBuf? || pc.MoveOn? || pc.Storing? || pc.Leave? {
      StorerKeeps(s, t, r);
    } else {
      MarkerKeeps(s, t, r);
    }
  }

  lemma SameRange(ids: seq<nat>, after: seq<nat>, n: nat)
    requires InRange(ids, n) && forall x :: x in after <==> x in ids
    ensures InRange(after, n)
  {
    forall k | 0 <= k < |after|
      ensures after[k] < n
    {
      assert after[k] in ids;
    }
  }

  lemma InvAt(s: State, t: nat)
    requires Inv(s) && t < |s.threads|
    ensures Typed(s) && ThreadOk(s, t) && InRange(s.threads[t].bufs, |s.bufs|)
    ensures InRange(Touches(s.threads[t].pc), |s.bufs|)
    ensures s.threads[t].storing.Some? ==> s.threads[t].storing.value < |s.bufs|
  {
  }

  /** A buffer found unmarked is neither the writer's nor on its way there. */
  lemma FreeToStore(s: State, b: nat)
    requires Inv(s) && b < |s.bufs|
    ensures !s.bufs[b].writing ==> !Owned(s, b) && b !in s.private
  {
    hide Inv;
    if b in s.private || s.writer == Clearing(b) {
      OwnedIsMarked(s, b);
    }
  }

  // ---- steps of the writer ----

  lemma SpliceKeeps(s: State)
    requires Inv(s) && s.writer.Asleep?
    ensures Inv(s.(private := s.queue, queue := [], writer := Spliced))
  {
    hide Markers;
    var r := s.(private := s.queue, queue := [], writer := Spliced);
    forall b | 0 <= b < |r.bufs|
      ensures BufOk(r, b)
    {
      assert BufOk(s, b);
    }
    forall u | 0 <= u < |r.threads|
      ensures ThreadOk(r, u)
    {
      assert ThreadOk(s, u);
    }
  }

  lemma GraceKeeps(s: State)
    requires Inv(s) && s.writer.Spliced?
    ensures Inv(s.(writer := Grace(Reading(s))))
  {
    hide Markers, Entries;
    var r := s.(writer := Grace(Reading(s)));
    forall b | 0 <= b < |r.bufs|
      ensures BufOk(r, b)
    {
      assert BufOk(s, b);
    }
    forall u | 0 <= u < |r.threads|
      ensures ThreadOk(r, u)
    {
      assert ThreadOk(s, u);
    }
  }

  /** When every section of the snapshot has ended, nobody stores into a spliced buffer. */
  lemma OwnKeeps(s: State)
    requires Inv(s) && s.writer == Grace({})
    ensures Inv(s.(writer := Writing(s.private)))
  {
    hide Markers, Entries;
    var r := s.(writer := Writing(s.private));
    forall b | 0 <= b < |r.bufs|
      ensures BufOk(r, b)
    {
      assert BufOk(s, b);
    }
    forall u | 0 <= u < |r.threads|
      ensures ThreadOk(r, u)
    {
      assert ThreadOk(s, u);
    }
    forall j, k | 0 <= j < k < |s.private|
      ensures s.private[j] != s.private[k]
    {
      assert BufOk(s, s.private[j]);
      if s.private[j] == s.private[k] {
        TwoEntries(s.private, j, k);
      }
    }
  }

  lemma WriteKeeps(s: State, r: State)
    requires Inv(s) && s.writer.Writing? && WriteStep(s) == Some(r)
    ensures Inv(r)
  {
    hide Markers, Entries;
    var todo := s.writer.todo;
    if todo != [] {
      assert forall k :: 0 <= k < |todo| - 1 ==> todo[1..][k] == todo[k + 1];
      assert forall b :: b in todo ==> b == todo[0] || b in todo[1..];
      assert todo[0] !in todo[1..];
    }
    forall b | 0 <= b < |r.bufs|
      ensures BufOk(r, b)
    {
      assert BufOk(s, b);
    }
    forall u | 0 <= u < |r.threads|
      ensures ThreadOk(r, u)
    {
      assert ThreadOk(s, u);
    }
  }

  lemma DrainKeeps(s: State, r: State)
    requires Inv(s) && s.writer.Draining? && WriteStep(s) == Some(r)
    ensures Inv(r)
  {
    hide Markers, Entries;
    if s.private != [] {
      assert forall b :: b in s.private ==> b == s.private[0] || b in s.private[1..];
    }
    forall b | 0 <= b < |r.bufs|
      ensures BufOk(r, b)
    {
      assert BufOk(s, b);
      if s.private != [] {
        EntriesFront(s.private, b);
        EntriesIn(s.private[1..], b);
      }
    }
    forall u | 0 <= u < |r.threads|
      ensures ThreadOk(r, u)
    {
      assert ThreadOk(s, u);
    }
  }

  lemma ClearKeeps(s: State, b: nat)
    requires Inv(s) && b < |s.bufs| && s.writer == Clearing(b)
    ensures Inv(WithBuf(s, b, s.bufs[b].(writing := false, len := 0)).(writer := Draining))
  {
    hide Markers, Entries;
    var r := WithBuf(s, b, s.bufs[b].(writing := false, len := 0)).(writer := Draining);
    forall c | 0 <= c < |r.bufs|
      ensures BufOk(r, c)
    {
      assert BufOk(s, c);
      EntriesIn(s.private, c);
    }
    forall u | 0 <= u < |r.threads|
      ensures ThreadOk(r, u)
    {
      assert ThreadOk(s, u);
    }
  }

  lemma WriterKeeps(s: State, r: State)
    requires Inv(s) && WriteStep(s) == Some(r)
    ensures Inv(r)
  {
    hide Inv;
    match s.writer
    case Asleep => SpliceKeeps(s);
    case Spliced => GraceKeeps(s);
    case Grace(waits) => OwnKeeps(s);
    case Writing(todo) => WriteKeeps(s, r);
    case Draining => DrainKeeps(s, r);
    case Clearing(b) =>
      ClearingAt(s);
      ClearKeeps(s, b);
  }

  lemma ClearingAt(s: State)
    requires Inv(s) && s.writer.Clearing?
    ensures s.writer.b < |s.bufs|
  {
  }

  // ---- all runs ----

  lemma StepKeeps(s: State, a: Action, r: State)
    requires Inv(s) && Next(s, a) == Some(r)
    ensures Inv(r)
  {
    hide Inv, ThreadStep, WriteStep, ThreadOk;
    match a
    case Trace(t, len) =>
      InvAt(s, t);
      BeginOk(s, t, Look(Total(len)));
      Moves(s, t, r.threads[t], s.writer);
    case Flush(t) =>
      InvAt(s, t);
      BeginOk(s, t, FLoad(0));
      Moves(s, t, r.threads[t], s.writer);
    case Step(t) => ThreadKeeps(s, t, r);
    case Write => WriterKeeps(s, r);
  }

  lemma BeginOk(s: State, t: nat, pc: Pc)
    requires t < |s.threads| && ThreadOk(s, t) && s.threads[t].pc.Out? && ((pc.Look? && 0 < pc.n <= BUF_SIZE) || pc.FLoad?)
    ensures ThreadOk(At(s, t, pc), t)
  {
  }

  function Exec(s: State, acts: seq<Action>): Option<State>
    decreases |acts|
  {
    if acts == [] then Some(s)
    else if !Typed(s) then None
    else
      var r := Next(s, acts[0]);
      if r.None? then None else Exec(r.value, acts[1..])
  }

  lemma {:induction false} RunKeeps(s: State, acts: seq<Action>, r: State)
    requires Inv(s) && Exec(s, acts) == Some(r)
    ensures Inv(r)
    decreases |acts|
  {
    hide Inv, Typed, Next;
    if acts != [] {
      var m := Next(s, acts[0]).value;
      StepKeeps(s, acts[0], m);
      RunKeeps(m, acts[1..], r);
    }
  }

  lemma {:induction false} NoMarkers(ths: seq<Thread>, b: nat)
    requires forall t :: 0 <= t < |ths| ==> ths[t].pc == Out
    ensures Markers(ths, b) == 0
  {
    if ths != [] {
      NoMarkers(ths[..|ths| - 1], b);
    }
  }

  lemma FromInitial(s: State, acts: seq<Action>, r: State)
    requires Initial(s) && Exec(s, acts) == Some(r)
    ensures Inv(r)
  {
    hide Exec, Inv;
    InitialHolds(s);
    RunKeeps(s, acts, r);
  }

  /** From the end of the writer's grace period until it clears TB_WRITING, no thread stores into the
      buffer, even one that was about to when a flush marked it. */
  lemma WriterOwnsItsBuffers(s: State, acts: seq<Action>, r: State, t: nat, b: nat)
    requires Initial(s) && Exec(s, acts) == Some(r) && t < |r.threads| && b < |r.bufs|
    ensures Owned(r, b) ==> r.bufs[b].writing && !(r.threads[t].pc.Storing? && r.threads[t].pc.b == b)
  {
    hide Exec, Markers, Entries;
    FromInitial(s, acts, r);
    assert ThreadOk(r, t);
    if Owned(r, b) {
      OwnedIsMarked(r, b);
    }
  }

  /** A marked buffer is in exactly one place between the marking and the clearing, an unmarked one
      in none: never twice in the shared queue and the writer's list together. */
  lemma BufferIsInOnePlace(s: State, acts: seq<Action>, r: State, b: nat)
    requires Initial(s) && Exec(s, acts) == Some(r) && b < |r.bufs|
    ensures Markers(r.threads, b) + Entries(r.queue, b) + Entries(r.private, b) + One(r.writer == Clearing(b))
            == One(r.bufs[b].writing)
    ensures !(b in r.queue && b in r.private)
  {
    hide Exec, Markers, Entries;
    FromInitial(s, acts, r);
    assert BufOk(r, b);
    EntriesIn(r.queue, b);
    EntriesIn(r.private, b);
  }

  /** Two threads never store into one buffer. */
  lemma StorersDiffer(s: State, acts: seq<Action>, r: State, t: nat, u: nat, b: nat)
    requires Initial(s) && Exec(s, acts) == Some(r) && t < |r.threads| && u < |r.threads|
    requires r.threads[t].pc.Storing? && r.threads[u].pc.Storing? && r.threads[t].pc.b == r.threads[u].pc.b == b
    ensures t == u
  {
    hide Exec, Markers, Entries;
    FromInitial(s, acts, r);
    assert ThreadOk(r, t) && ThreadOk(r, u);
  }

  // ---- what gets written ----

  /** What the buffer holds and has not been written. */
  function Rest(s: State, b: nat): seq<Cell>
    requires b < |s.bufs| && s.bufs[b].len <= |s.bufs[b].area|
  {
    if Flushed(s, b) then [] else s.bufs[b].area[..s.bufs[b].len]
  }

  /** A byte that was stored, was not written and is not in the buffer any more. */
  predicate Gone(buf: Buffer, c: Cell) {
    c.Of? && c in buf.stored && c !in buf.written && c !in buf.area
  }

  /** With every event at the start of the buffer a byte only ever stands at its place in its event. */
  predicate InPlace(area: seq<Cell>) {
    forall j :: 0 <= j < |area| ==> area[j].Of? ==> area[j].i == j
  }

  predicate Older(cells: seq<Cell>, k: nat) {
    forall j :: 0 <= j < |cells| ==> cells[j].Of? ==> cells[j].store < k
  }

  /** Nothing is lost as long as the placement is right or no store found anything to overwrite; with
      events at the start the first store that did lost a byte. */
  ghost predicate ContentOk(s: State, b: nat)
    requires b < |s.bufs| && s.bufs[b].len <= |s.bufs[b].area|
  {
    var buf := s.bufs[b];
    && Older(buf.stored, s.stores) && Older(buf.written, s.stores) && Older(buf.area, s.stores)
    && (s.place.AtEnd? || !buf.piled ==> buf.stored == buf.written + Rest(s, b))
    && (s.place.AtStart? ==>
          && InPlace(buf.area)
          && (Rest(s, b) != [] ==> buf.area[0].Of? && buf.area[0] in buf.stored && buf.area[0] !in buf.written)
          && (buf.piled ==> exists c :: Gone(buf, c)))
  }

  ghost predicate Contents(s: State) {
    forall b :: 0 <= b < |s.bufs| ==> s.bufs[b].len <= |s.bufs[b].area| && ContentOk(s, b)
  }

  /** A step that leaves a buffer's bytes alone, and whether they were written. */
  lemma ContentFrame(s: State, r: State, b: nat)
    requires b < |s.bufs| == |r.bufs| && s.bufs[b].len <= |s.bufs[b].area| && ContentOk(s, b)
    requires r.bufs[b] == s.bufs[b].(writing := r.bufs[b].writing) && r.place == s.place && r.stores >= s.stores
    requires Flushed(r, b) <==> Flushed(s, b)
    ensures ContentOk(r, b)
  {
    if s.bufs[b].piled && s.place.AtStart? {
      var c :| Gone(s.bufs[b], c);
      assert Gone(r.bufs[b], c);
    }
  }

  lemma StoredCells(buf: Buffer, place: Placement, k: nat, n: nat)
    requires buf.len + n <= |buf.area|
    ensures var r := Stored(buf, place, k, n);
            && (Older(buf.stored, k) ==> Older(r.stored, k + 1))
            && (Older(buf.written, k) ==> Older(r.written, k + 1))
            && (Older(buf.area, k) ==> Older(r.area, k + 1))
            && (place.AtStart? && InPlace(buf.area) ==> InPlace(r.area))
            && (place.AtEnd? || buf.len == 0 ==> r.area[..r.len] == buf.area[..buf.len] + Cells(k, n))
  {
  }

  /** A store of a buffer that has bytes puts the first of them where nothing finds it again. */
  lemma StoreBuries(buf: Buffer, k: nat, n: nat)
    requires 0 < buf.len && buf.len + n <= |buf.area| && n > 0
    requires Older(buf.stored, k) && InPlace(buf.area)
    requires buf.area[0].Of? && buf.area[0] in buf.stored && buf.area[0] !in buf.written
    ensures Gone(Stored(buf, AtStart, k, n), buf.area[0])
  {
    var c, r := buf.area[0], Stored(buf, AtStart, k, n);
    OlderIn(buf.stored, k, c);
    forall j | 0 <= j < |r.area|
      ensures r.area[j] != c
    {
    }
  }

  lemma OlderIn(cells: seq<Cell>, k: nat, c: Cell)
    requires Older(cells, k) && c in cells && c.Of?
    ensures c.store < k
  {
  }

  /** What is gone stays gone: a store only brings new bytes. */
  lemma GoneStays(buf: Buffer, place: Placement, k: nat, n: nat, c: Cell)
    requires buf.len + n <= |buf.area| && Older(buf.stored, k) && Gone(buf, c)
    ensures Gone(Stored(buf, place, k, n), c)
  {
    var r := Stored(buf, place, k, n);
    OlderIn(buf.stored, k, c);
    forall j | 0 <= j < |r.area|
      ensures r.area[j] != c
    {
    }
  }

  lemma StoreContent(s: State, r: State, b: nat, n: nat)
    requires b < |s.bufs| && s.bufs[b].len + n <= |s.bufs[b].area| && n > 0 && ContentOk(s, b)
    requires r.bufs == s.bufs[b := Stored(s.bufs[b], s.place, s.stores, n)]
    requires r.place == s.place && r.stores == s.stores + 1 && !Flushed(s, b) && !Flushed(r, b)
    ensures ContentOk(r, b)
  {
    hide Flushed, Older, InPlace, Stored;
    var buf, k := s.bufs[b], s.stores;
    var after := r.bufs[b];
    StoredCells(buf, s.place, k, n);
    StoredParts(buf, s.place, k, n);
    assert (buf.written + buf.area[..buf.len]) + Cells(k, n) == buf.written + (buf.area[..buf.len] + Cells(k, n));
    if s.place.AtStart? {
      FirstCell(buf, k, n);
      if buf.piled {
        var c :| Gone(buf, c);
        GoneStays(buf, s.place, k, n, c);
      } else if buf.len > 0 {
        assert Rest(s, b)[0] == buf.area[0];
        StoreBuries(buf, k, n);
      }
    }
  }

  lemma StoredParts(buf: Buffer, place: Placement, k: nat, n: nat)
    requires buf.len + n <= |buf.area|
    ensures var r := Stored(buf, place, k, n);
            && r.len == buf.len + n && |r.area| == |buf.area| && r.stored == buf.stored + Cells(k, n)
            && r.written == buf.written && r.piled == (buf.piled || buf.len > 0) && r.writing == buf.writing
  {
  }

  /** The buffer then starts with the new event, which was never written. */
  lemma FirstCell(buf: Buffer, k: nat, n: nat)
    requires buf.len + n <= |buf.area| && n > 0 && Older(buf.written, k)
    ensures var r := Stored(buf, AtStart, k, n);
            r.area[0] == Of(k, 0) && r.area[0] in r.stored && r.area[0] !in r.written
  {
    var r := Stored(buf, AtStart, k, n);
    assert r.area[0] == Cells(k, n)[0];
    assert Cells(k, n)[0] in Cells(k, n);
    if Of(k, 0) in buf.written {
      OlderIn(buf.written, k, Of(k, 0));
    }
  }

  /** writev takes the first len bytes. */
  lemma WriteContent(s: State, r: State, b: nat)
    requires b < |s.bufs| && s.bufs[b].len <= |s.bufs[b].area| && ContentOk(s, b) && !Flushed(s, b)
    requires r.bufs == s.bufs[b := s.bufs[b].(written := s.bufs[b].written + s.bufs[b].area[..s.bufs[b].len])]
    requires r.place == s.place && r.stores == s.stores && Flushed(r, b)
    ensures ContentOk(r, b)
  {
    hide Flushed, InPlace;
    var buf := s.bufs[b];
    var part := buf.area[..buf.len];
    assert forall c :: c in part ==> c in buf.area;
    if s.place.AtStart? && buf.piled {
      var c :| Gone(buf, c);
      assert Gone(r.bufs[b], c);
    }
  }

  lemma ClearContent(s: State, r: State, b: nat)
    requires b < |s.bufs| && s.bufs[b].len <= |s.bufs[b].area| && ContentOk(s, b) && Flushed(s, b)
    requires r.bufs == s.bufs[b := s.bufs[b].(writing := false, len := 0)]
    requires r.place == s.place && r.stores == s.stores
    ensures ContentOk(r, b)
  {
    hide Flushed, InPlace, Older;
    if s.place.AtStart? && s.bufs[b].piled {
      var c :| Gone(s.bufs[b], c);
      assert Gone(r.bufs[b], c);
    }
  }

  lemma ThreadBufs(s: State, t: nat, r: State)
    requires Typed(s) && t < |s.threads| && ThreadStep(s, t) == Some(r)
    ensures |r.bufs| == |s.bufs| && r.place == s.place && r.private == s.private
    ensures r.writer == s.writer || (r.writer.Grace? && s.writer.Grace?)
    ensures if s.threads[t].pc.Storing? then r.stores == s.stores + 1 else r.stores == s.stores
    ensures forall b :: 0 <= b < |s.bufs| && !(s.threads[t].pc.Storing? && s.threads[t].pc.b == b) ==>
              r.bufs[b] == s.bufs[b].(writing := r.bufs[b].writing)
  {
    hide Stored;
    var pc := s.threads[t].pc;
    if pc.Storing? || pc.Retire? || pc.FMark? {
      assert Touches(pc)[0] == pc.b;
    }
  }

  lemma StoringBuf(s: State, t: nat, r: State)
    requires Typed(s) && t < |s.threads| && ThreadStep(s, t) == Some(r) && s.threads[t].pc.Storing?
    ensures var pc := s.threads[t].pc;
            && pc.b < |s.bufs| && s.bufs[pc.b].len + pc.n <= |s.bufs[pc.b].area|
            && r.bufs == s.bufs[pc.b := Stored(s.bufs[pc.b], s.place, s.stores, pc.n)]
  {
    hide Stored;
    assert Touches(s.threads[t].pc)[0] == s.threads[t].pc.b;
  }

  lemma ThreadContents(s: State, t: nat, r: State)
    requires Inv(s) && Contents(s) && t < |s.threads| && ThreadStep(s, t) == Some(r)
    ensures Contents(r)
  {
    hide Inv, Typed, ContentOk, Stored, ThreadStep;
    InvAt(s, t);
    ThreadBufs(s, t, r);
    var pc := s.threads[t].pc;
    forall b | 0 <= b < |r.bufs|
      ensures r.bufs[b].len <= |r.bufs[b].area| && ContentOk(r, b)
    {
      if pc.Storing? && pc.b == b {
        StoringBuf(s, t, r);
        StoredParts(s.bufs[b], s.place, s.stores, pc.n);
        StoreContent(s, r, b, pc.n);
      } else {
        ContentFrame(s, r, b);
      }
    }
  }

  lemma WriterContents(s: State, r: State)
    requires Inv(s) && Contents(s) && WriteStep(s) == Some(r)
    ensures Contents(r)
  {
    hide ContentOk, BufOk, ThreadOk, Markers, Entries;
    forall b | 0 <= b < |r.bufs|
      ensures r.bufs[b].len <= |r.bufs[b].area| && ContentOk(r, b)
    {
      if s.writer.Writing? && s.writer.todo != [] && s.writer.todo[0] == b {
        assert b !in s.writer.todo[1..];
        WriteContent(s, r, b);
      } else if s.writer == Clearing(b) {
        ClearContent(s, r, b);
      } else {
        SameFlushed(s, r, b);
        ContentFrame(s, r, b);
      }
    }
  }

  lemma SameFlushed(s: State, r: State, b: nat)
    requires Inv(s) && WriteStep(s) == Some(r) && b < |s.bufs|
    requires s.writer != Clearing(b) && !(s.writer.Writing? && s.writer.todo != [] && s.writer.todo[0] == b)
    ensures Flushed(r, b) <==> Flushed(s, b)
  {
    hide BufOk, ThreadOk, Markers, Entries;
    if s.writer.Writing? && s.writer.todo != [] {
      assert b in s.writer.todo <==> b in s.writer.todo[1..];
    }
    if s.writer.Draining? && s.private != [] {
      assert b in s.private <==> b == s.private[0] || b in s.private[1..];
    }
  }

  lemma StepContents(s: State, a: Action, r: State)
    requires Inv(s) && Contents(s) && Next(s, a) == Some(r)
    ensures Contents(r)
  {
    hide Inv, ContentOk, ThreadStep, WriteStep;
    match a
    case Step(t) => ThreadContents(s, t, r);
    case Write => WriterContents(s, r);
    case _ =>
      forall b | 0 <= b < |r.bufs|
        ensures r.bufs[b].len <= |r.bufs[b].area| && ContentOk(r, b)
      {
        ContentFrame(s, r, b);
      }
  }

  /** Some step of the run stores into buffer b and finds bytes in it. */
  predicate Piles(s: State, acts: seq<Action>, b: nat)
    decreases |acts|
  {
    && acts != [] && Typed(s) && Next(s, acts[0]).Some?
    && ((acts[0].Step? && acts[0].t < |s.threads| && s.threads[acts[0].t].pc.Storing? && s.threads[acts[0].t].pc.b == b
         && b < |s.bufs| && s.bufs[b].len > 0)
        || Piles(Next(s, acts[0]).value, acts[1..], b))
  }

  lemma StepPiles(s: State, a: Action, r: State, b: nat)
    requires Typed(s) && Next(s, a) == Some(r) && b < |s.bufs|
    ensures |r.bufs| == |s.bufs| && r.place == s.place
    ensures r.bufs[b].piled <==>
            s.bufs[b].piled || (a.Step? && a.t < |s.threads| && s.threads[a.t].pc.Storing? && s.threads[a.t].pc.b == b
                                && s.bufs[b].len > 0)
  {
    hide ThreadStep, WriteStep, Typed, Stored;
    match a
    case Step(t) =>
      ThreadBufs(s, t, r);
      if s.threads[t].pc.Storing? {
        StoringBuf(s, t, r);
        StoredParts(s.bufs[s.threads[t].pc.b], s.place, s.stores, s.threads[t].pc.n);
      }
    case Write => WriterPiles(s, r, b);
    case _ =>
  }

  lemma WriterPiles(s: State, r: State, b: nat)
    requires Typed(s) && WriteStep(s) == Some(r) && b < |s.bufs|
    ensures |r.bufs| == |s.bufs| && r.place == s.place && r.bufs[b].piled == s.bufs[b].piled
  {
  }

  lemma {:induction false} RunContents(s: State, acts: seq<Action>, r: State, b: nat)
    requires Inv(s) && Contents(s) && Exec(s, acts) == Some(r) && b < |s.bufs|
    ensures Inv(r) && Contents(r) && |r.bufs| == |s.bufs| && r.place == s.place
    ensures r.bufs[b].piled <==> s.bufs[b].piled || Piles(s, acts, b)
    decreases |acts|
  {
    hide Inv, Typed, Next, Contents;
    if acts != [] {
      var m := Next(s, acts[0]).value;
      StepKeeps(s, acts[0], m);
      StepContents(s, acts[0], m);
      StepPiles(s, acts[0], m, b);
      RunContents(m, acts[1..], r, b);
    }
  }

  lemma InitialHolds(s: State)
    requires Initial(s)
    ensures Inv(s) && Contents(s)
  {
    hide Markers, Entries;
    forall b | 0 <= b < |s.bufs|
      ensures BufOk(s, b) && ContentOk(s, b)
    {
      NoMarkers(s.threads, b);
      assert Entries(s.queue, b) == 0 && Entries(s.private, b) == 0 by { EntriesIn([], b); }
    }
  }

  /** What was stored in a buffer is what was written from it followed by what is still in it and not yet
      written, in every run if each event goes behind the last one. With events at the start of the
      buffer, as the code has it, that holds exactly if no store of the run found bytes in the buffer. */
  lemma NothingIsLostIff(s: State, acts: seq<Action>, r: State, b: nat)
    requires Initial(s) && Exec(s, acts) == Some(r) && b < |r.bufs|
    ensures r.bufs[b].len <= |r.bufs[b].area|
    ensures r.bufs[b].stored == r.bufs[b].written + Rest(r, b) <==> s.place.AtEnd? || !Piles(s, acts, b)
  {
    hide Exec, Inv, Flushed, Piles;
    InitialHolds(s);
    SameBufs(s, acts, r);
    RunContents(s, acts, r, b);
    var buf := r.bufs[b];
    assert ContentOk(r, b);
    if s.place.AtStart? && buf.piled {
      var c :| Gone(buf, c);
      assert forall d :: d in Rest(r, b) ==> d in buf.area;
    }
  }

  lemma {:induction false} SameBufs(s: State, acts: seq<Action>, r: State)
    requires Exec(s, acts) == Some(r)
    ensures |r.bufs| == |s.bufs|
    decreases |acts|
  {
    hide Typed, Next;
    if acts != [] {
      NextBufs(s, acts[0], Next(s, acts[0]).value);
      SameBufs(Next(s, acts[0]).value, acts[1..], r);
    }
  }

  lemma NextBufs(s: State, a: Action, r: State)
    requires Typed(s) && Next(s, a) == Some(r)
    ensures |r.bufs| == |s.bufs|
  {
    hide ThreadStep;
    if a.Step? {
      ThreadBufs(s, a.t, r);
    }
  }

  /** No store runs past the end of its buffer. */
  lemma StoresFit(s: State, acts: seq<Action>, r: State, t: nat)
    requires Initial(s) && Exec(s, acts) == Some(r) && t < |r.threads| && r.threads[t].pc.Storing?
    ensures var pc := r.threads[t].pc; pc.b < |r.bufs| && r.bufs[pc.b].len + pc.n <= |r.bufs[pc.b].area| == BUF_SIZE
  {
    hide Exec, Markers, Entries;
    FromInitial(s, acts, r);
    assert ThreadOk(r, t) && Touches(r.threads[t].pc)[0] == r.threads[t].pc.b;
  }

  // ---- a run that loses an event ----

  lemma {:induction false} ExecMore(s: State, acts: seq<Action>, m: State, a: Action, r: State)
    requires Exec(s, acts) == Some(m) && Typed(m) && Next(m, a) == Some(r)
    ensures Exec(s, acts + [a]) == Some(r)
    decreases |acts|
  {
    hide Typed, Next;
    if acts == [] {
      assert [a][1..] == [];
      assert Exec(r, []) == Some(r);
    } else {
      assert (acts + [a])[1..] == acts[1..] + [a];
      ExecMore(Next(s, acts[0]).value, acts[1..], m, a, r);
    }
  }

  lemma Goes(s: State, acts: seq<Action>, m: State, a: Action, r: State)
    requires Exec(s, acts) == Some(m) && Inv(m) && Typed(m) && Next(m, a) == Some(r)
    ensures Exec(s, acts + [a]) == Some(r) && Inv(r) && Typed(r)
  {
    hide Inv, Typed, Next, Exec;
    ExecMore(s, acts, m, a, r);
    StepKeeps(m, a, r);
    InvTyped(r);
  }

  lemma InvTyped(s: State)
    requires Inv(s)
    ensures Typed(s)
  {
  }

  lemma Starts(s: State)
    requires Initial(s)
    ensures Exec(s, []) == Some(s) && Inv(s) && Typed(s)
  {
    hide Inv;
    InitialHolds(s);
    InvTyped(s);
  }

  /** One thread with one buffer, storing as the code does. */
  function Alone(): State {
    State(AtStart, [Thread(Out, [0], None)], [Buffer(false, 0, Unused(), [], [], false)], [], [], Asleep, 0)
  }

  function Filled(): (r: Buffer)
    ensures r.len == 16 && |r.area| == BUF_SIZE && !r.writing
  {
    Stored(Buffer(false, 0, Unused(), [], [], false), AtStart, 0, 16)
  }

  function Overwritten(): (r: Buffer)
    ensures r.len == 32 && |r.area| == BUF_SIZE && !r.writing && r.written == []
  {
    Stored(Filled(), AtStart, 1, 16)
  }

  /** The thread has stored two events of eight bytes with their headers. */
  function Twice(): State {
    State(AtStart, [Thread(Out, [0], Some(0))], [Overwritten()], [], [], Asleep, 2)
  }

  /** A flush has sent the buffer to the writer. */
  function Queued(): State {
    Twice().(bufs := [Overwritten().(writing := true)], queue := [0])
  }

  /** After a flush, and the writer's turn up to the end of writev. */
  function AllWritten(): State {
    State(AtStart, [Thread(Out, [0], Some(0))],
          [Overwritten().(writing := true, written := [] + Overwritten().area[..32])], [], [0], Writing([]), 2)
  }

  lemma StoresTwice() returns (acts: seq<Action>)
    ensures Initial(Alone()) && Exec(Alone(), acts) == Some(Twice()) && Inv(Twice()) && Typed(Twice())
  {
    hide Exec, Inv, Typed, Filled, Overwritten, Stored, Unused;
    var s := Alone();
    Starts(s);
    acts := [];
    var s1 := At(s, 0, Look(16));
    Goes(s, acts, s, Trace(0, 8), s1);
    acts := acts + [Trace(0, 8)];
    var s2 := At(s1, 0, NextBuf(16));
    Goes(s, acts, s1, Step(0), s2);
    acts := acts + [Step(0)];
    var s3 := s2.(threads := s2.threads[0 := Thread(Storing(0, 16), [0], Some(0))]);
    Goes(s, acts, s2, Step(0), s3);
    acts := acts + [Step(0)];
    assert Filled() == Stored(s3.bufs[0], AtStart, 0, 16) by { IsFilled(); }
    var s4 := At(WithBuf(s3, 0, Filled()).(stores := 1), 0, Leave);
    Goes(s, acts, s3, Step(0), s4);
    acts := acts + [Step(0)];
    var s5 := At(s4, 0, Out);
    Goes(s, acts, s4, Step(0), s5);
    acts := acts + [Step(0)];
    var s6 := At(s5, 0, Look(16));
    Goes(s, acts, s5, Trace(0, 8), s6);
    acts := acts + [Trace(0, 8)];
    var s7 := At(s6, 0, Storing(0, 16));
    Goes(s, acts, s6, Step(0), s7);
    acts := acts + [Step(0)];
    assert Overwritten() == Stored(s7.bufs[0], AtStart, 1, 16) by { IsOverwritten(); }
    var s8 := At(WithBuf(s7, 0, Overwritten()).(stores := 2), 0, Leave);
    Goes(s, acts, s7, Step(0), s8);
    acts := acts + [Step(0)];
    var s9 := At(s8, 0, Out);
    Goes(s, acts, s8, Step(0), s9);
    acts := acts + [Step(0)];
    assert s9.threads == Twice().threads && s9.bufs == Twice().bufs;
    assert s9 == Twice();
  }

  lemma IsFilled()
    ensures Filled() == Stored(Buffer(false, 0, Unused(), [], [], false), AtStart, 0, 16)
  {
  }

  lemma IsOverwritten()
    ensures Overwritten() == Stored(Filled(), AtStart, 1, 16)
  {
  }

  lemma FlushesTwice() returns (acts: seq<Action>)
    requires Inv(Twice()) && Typed(Twice())
    ensures Exec(Twice(), acts) == Some(Queued()) && Inv(Queued()) && Typed(Queued())
  {
    hide Exec, Inv, Typed, Overwritten;
    var s := Twice();
    acts := [];
    assert Exec(s, []) == Some(s) by { Stays(s); }
    var s1 := At(s, 0, FLoad(0));
    Goes(s, acts, s, Flush(0), s1);
    acts := acts + [Flush(0)];
    var s2 := At(s1, 0, FMark(0, 0));
    Goes(s, acts, s1, Step(0), s2);
    acts := acts + [Step(0)];
    var s3 := At(WithBuf(s2, 0, Overwritten().(writing := true)), 0, FEnq(0, 0));
    Goes(s, acts, s2, Step(0), s3);
    acts := acts + [Step(0)];
    assert [] + [0] == [0];
    var s4 := At(s3.(queue := [0]), 0, FLoad(1));
    Goes(s, acts, s3, Step(0), s4);
    acts := acts + [Step(0)];
    var s5 := At(s4, 0, Leave);
    Goes(s, acts, s4, Step(0), s5);
    acts := acts + [Step(0)];
    var s6 := At(s5, 0, Out);
    Goes(s, acts, s5, Step(0), s6);
    acts := acts + [Step(0)];
    assert s6.threads == Queued().threads && s6.bufs == Queued().bufs;
    assert s6 == Queued();
  }

  lemma WritesTwice() returns (acts: seq<Action>)
    requires Inv(Queued()) && Typed(Queued())
    ensures Exec(Queued(), acts) == Some(AllWritten())
  {
    hide Exec, Inv, Typed, Overwritten;
    var s := Queued();
    acts := [];
    assert Exec(s, []) == Some(s) by { Stays(s); }
    var s1 := s.(private := [0], queue := [], writer := Spliced);
    Goes(s, acts, s, Write, s1);
    acts := acts + [Write];
    assert Reading(s1) == {};
    var s2 := s1.(writer := Grace({}));
    Goes(s, acts, s1, Write, s2);
    acts := acts + [Write];
    var s3 := s2.(writer := Writing([0]));
    Goes(s, acts, s2, Write, s3);
    acts := acts + [Write];
    assert [0][1..] == [];
    var s4 := WithBuf(s3, 0, AllWritten().bufs[0]).(writer := Writing([]));
    Goes(s, acts, s3, Write, s4);
    acts := acts + [Write];
    assert s4.bufs == AllWritten().bufs;
    assert s4 == AllWritten();
  }

  lemma Stays(s: State)
    ensures Exec(s, []) == Some(s)
  {
  }

  lemma {:induction false} ExecConcat(s: State, a: seq<Action>, m: State, c: seq<Action>, r: State)
    requires Exec(s, a) == Some(m) && Exec(m, c) == Some(r)
    ensures Exec(s, a + c) == Some(r)
    decreases |a|
  {
    hide Typed, Next;
    if a == [] {
      assert [] + c == c;
    } else {
      assert (a + c)[1..] == a[1..] + c;
      ExecConcat(Next(s, a[0]).value, a[1..], m, c, r);
    }
  }

  /** As written, two stores into one buffer and a flush: writev has taken all 32 bytes of the buffer, and
      no byte of the first event is among them; behind the second event stands memory that nothing was
      stored into. */
  lemma FirstEventIsLost() returns (acts: seq<Action>)
    ensures Initial(Alone()) && Exec(Alone(), acts) == Some(AllWritten()) && Flushed(AllWritten(), 0)
    ensures var buf := AllWritten().bufs[0];
            && buf.stored == Cells(0, 16) + Cells(1, 16)
            && buf.written == Cells(1, 16) + seq(16, _ => Never)
            && (forall i :: 0 <= i < 16 ==> Of(0, i) !in buf.written)
    ensures Piles(Alone(), acts, 0)
  {
    hide Exec, Inv, Typed, Piles;
    var a := StoresTwice();
    var c := FlushesTwice();
    ExecConcat(Alone(), a, Twice(), c, Queued());
    var d := WritesTwice();
    ExecConcat(Alone(), a + c, Queued(), d, AllWritten());
    acts := a + c + d;
    WrittenBytes();
    var buf := AllWritten().bufs[0];
    assert buf.stored[0] == Of(0, 0) && buf.written[0] == Of(1, 0);
    NothingIsLostIff(Alone(), acts, AllWritten(), 0);
  }

  lemma WrittenBytes()
    ensures Overwritten().stored == Cells(0, 16) + Cells(1, 16)
    ensures Overwritten().area[..32] == Cells(1, 16) + seq(16, _ => Never)
    ensures forall i :: 0 <= i < 16 ==> Of(0, i) !in Overwritten().area[..32]
  {
  }
}
