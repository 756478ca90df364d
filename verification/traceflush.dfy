/** What a flush reaches and that the writer gets it all written (shared/trace.c:125-165, 167-263). */
module TraceFlush {
  import opened Options
  import opened Tally
  import opened Trace

  // ---- a flush, interleaved with anything ----

  /** In some state of the run the buffer is marked for writing. */
  predicate MarkedIn(s: State, acts: seq<Action>, b: nat)
    decreases |acts|
  {
    || (b < |s.bufs| && s.bufs[b].writing)
    || (acts != [] && Typed(s) && Next(s, acts[0]).Some? && MarkedIn(Next(s, acts[0]).value, acts[1..], b))
  }

  /** From this state on the run marks every buffer of u that holds bytes now. */
  predicate Catches(s: State, acts: seq<Action>, u: nat) {
    && u < |s.threads|
    && forall b :: 0 <= b < |s.bufs| && b in s.threads[u].bufs && s.bufs[b].len > 0 ==> MarkedIn(s, acts, b)
  }

  predicate CaughtIn(s: State, acts: seq<Action>, u: nat)
    decreases |acts|
  {
    || Catches(s, acts, u)
    || (acts != [] && Typed(s) && Next(s, acts[0]).Some? && CaughtIn(Next(s, acts[0]).value, acts[1..], u))
  }

  /** t begins no other call. */
  predicate OneCall(acts: seq<Action>, t: nat) {
    forall k :: 0 <= k < |acts| ==> acts[k] != Flush(t) && !(acts[k].Trace? && acts[k].t == t)
  }

  predicate Over(s: State, t: nat) {
    t < |s.threads| && (s.threads[t].pc.Leave? || s.threads[t].pc.Out?)
  }

  /** Before thread u: still to look at it. */
  predicate Ahead(pc: Pc, u: nat) {
    (pc.FLoad? && pc.u <= u) || ((pc.FMark? || pc.FEnq?) && pc.u < u)
  }

  lemma OthersPc(s: State, a: Action, r: State, t: nat)
    requires Typed(s) && Next(s, a) == Some(r) && t < |s.threads|
    requires a != Step(t) && a != Flush(t) && !(a.Trace? && a.t == t)
    ensures |r.threads| == |s.threads| && r.threads[t] == s.threads[t]
  {
    hide Stored, Put, Cells, ToTail;
  }

  lemma FlushStep(s: State, t: nat, r: State, u: nat)
    requires Typed(s) && t < |s.threads| && ThreadStep(s, t) == Some(r) && Ahead(s.threads[t].pc, u)
    requires u < |s.threads|
    ensures |r.threads| == |s.threads|
    ensures || Ahead(r.threads[t].pc, u)
            || (s.threads[t].pc == FLoad(u) &&
                (s.threads[u].storing.Some? ==> r.threads[t].pc == FMark(u, s.threads[u].storing.value)))
  {
  }

  lemma MarkStep(s: State, t: nat, r: State)
    requires Typed(s) && t < |s.threads| && ThreadStep(s, t) == Some(r) && s.threads[t].pc.FMark?
    ensures s.threads[t].pc.b < |r.bufs| && r.bufs[s.threads[t].pc.b].writing
  {
    assert Touches(s.threads[t].pc)[0] == s.threads[t].pc.b;
  }

  lemma {:induction false} MarksIt(s: State, acts: seq<Action>, r: State, t: nat)
    requires Inv(s) && Exec(s, acts) == Some(r) && OneCall(acts, t) && Over(r, t)
    requires t < |s.threads| && s.threads[t].pc.FMark?
    ensures MarkedIn(s, acts, s.threads[t].pc.b)
    decreases |acts|
  {
    hide Inv, Typed, Next;
    assert acts != [];
    InvTyped(s);
    var m := Next(s, acts[0]).value;
    StepKeeps(s, acts[0], m);
    if acts[0] == Step(t) {
      StepIs(s, t, m);
      MarkStep(s, t, m);
    } else {
      assert acts[0] != Flush(t) && !(acts[0].Trace? && acts[0].t == t);
      OthersPc(s, acts[0], m, t);
      MarksIt(m, acts[1..], r, t);
    }
  }

  lemma StepIs(s: State, t: nat, r: State)
    requires Typed(s) && t < |s.threads| && Next(s, Step(t)) == Some(r)
    ensures ThreadStep(s, t) == Some(r)
  {
    hide ThreadStep;
  }

  /** What a thread holds unmarked is in its storing buffer. */
  lemma OnlyStoring(s: State, u: nat, b: nat)
    requires Inv(s) && u < |s.threads| && b < |s.bufs| && b in s.threads[u].bufs && s.bufs[b].len > 0 && !s.bufs[b].writing
    ensures s.threads[u].storing == Some(b)
  {
    hide BufOk, Disjoint, WriterOk, Typed;
    assert ThreadOk(s, u);
  }

  lemma {:induction false} FlushCatches(s: State, acts: seq<Action>, r: State, t: nat, u: nat)
    requires Inv(s) && Exec(s, acts) == Some(r) && OneCall(acts, t) && Over(r, t)
    requires t < |s.threads| && u < |s.threads| && Ahead(s.threads[t].pc, u)
    ensures CaughtIn(s, acts, u)
    decreases |acts|
  {
    hide Inv, Typed, Next;
    assert acts != [];
    InvTyped(s);
    var m := Next(s, acts[0]).value;
    StepKeeps(s, acts[0], m);
    if acts[0] == Step(t) {
      StepIs(s, t, m);
      FlushStep(s, t, m, u);
    } else {
      assert acts[0] != Flush(t) && !(acts[0].Trace? && acts[0].t == t);
      OthersPc(s, acts[0], m, t);
    }
    if Ahead(m.threads[t].pc, u) {
      FlushCatches(m, acts[1..], r, t, u);
    } else {
      forall b | 0 <= b < |s.bufs| && b in s.threads[u].bufs && s.bufs[b].len > 0
        ensures MarkedIn(s, acts, b)
      {
        if !s.bufs[b].writing {
          OnlyStoring(s, u, b);
          MarksIt(m, acts[1..], r, t);
        }
      }
    }
  }

  /** trace_flush skips no thread: in every interleaving there is for each thread a moment during the flush
      such that all bytes the thread's buffers hold at that moment are in buffers marked for the writer
      by the flush's end. */
  lemma FlushReachesAll(s: State, pre: seq<Action>, m: State, t: nat, acts: seq<Action>, r: State, u: nat)
    requires Initial(s) && Exec(s, pre) == Some(m) && Typed(m)
    requires acts != [] && acts[0] == Flush(t) && OneCall(acts[1..], t)
    requires Exec(m, acts) == Some(r) && Over(r, t) && u < |m.threads|
    ensures CaughtIn(m, acts, u)
  {
    hide Exec, Inv, CaughtIn;
    FromInitial(s, pre, m);
    ExecRest(m, acts, r);
    var n := Next(m, acts[0]).value;
    StepKeeps(m, acts[0], n);
    FlushBegins(m, t, n);
    FlushCatches(n, acts[1..], r, t, u);
    CaughtLater(m, acts, u);
  }

  lemma FlushBegins(s: State, t: nat, r: State)
    requires Typed(s) && Next(s, Flush(t)) == Some(r)
    ensures t < |r.threads| == |s.threads| && r.threads[t].pc == FLoad(0) && r.bufs == s.bufs
    ensures forall u :: 0 <= u < |s.threads| ==> r.threads[u].bufs == s.threads[u].bufs
  {
  }

  lemma ExecRest(s: State, acts: seq<Action>, r: State)
    requires Exec(s, acts) == Some(r) && acts != []
    ensures Typed(s) && Next(s, acts[0]).Some? && Exec(Next(s, acts[0]).value, acts[1..]) == Some(r)
  {
    hide Typed, Next;
  }

  lemma CaughtLater(s: State, acts: seq<Action>, u: nat)
    requires acts != [] && Typed(s) && Next(s, acts[0]).Some? && CaughtIn(Next(s, acts[0]).value, acts[1..], u)
    ensures CaughtIn(s, acts, u)
  {
    hide Typed, Next;
  }

  // ---- nothing in the way ----

  predicate AllOut(s: State) {
    forall t :: 0 <= t < |s.threads| ==> s.threads[t].pc.Out?
  }

  predicate OnlyWrites(acts: seq<Action>) {
    forall k :: 0 <= k < |acts| ==> acts[k] == Write
  }

  /** How many steps the writer has before it, at most. */
  function WriterLeft(s: State): nat {
    10 * |s.queue| +
    match s.writer
    case Asleep => 0
    case Spliced => 4 + 3 * |s.private|
    case Grace(_) => 3 + 3 * |s.private|
    case Writing(todo) => 2 + |todo| + 2 * |s.private|
    case Draining => 1 + 2 * |s.private|
    case Clearing(_) => 2 + 2 * |s.private|
  }

  lemma WriteFalls(s: State) returns (r: State)
    requires Inv(s) && AllOut(s) && GraceOut(s) && !(s.writer.Asleep? && s.queue == [])
    ensures Typed(s) && Next(s, Write) == Some(r) && AllOut(r) && GraceOut(r) && WriterLeft(r) < WriterLeft(s)
    ensures r.threads == s.threads && |r.bufs| == |s.bufs| && r.place == s.place
  {
    hide BufOk, Disjoint, WriterOk, ThreadOk;
    r := WriteStep(s).value;
  }

  predicate GraceOut(s: State) {
    s.writer.Grace? ==> s.writer.waits == {}
  }

  lemma {:induction false} WriterFinishes(s: State) returns (acts: seq<Action>, r: State)
    requires Inv(s) && AllOut(s) && GraceOut(s)
    ensures OnlyWrites(acts) && Exec(s, acts) == Some(r) && r.writer.Asleep? && r.queue == []
    ensures Inv(r) && r.threads == s.threads && |r.bufs| == |s.bufs| && r.place == s.place
    ensures NoneUnmarked(s) ==> NoneUnmarked(r)
    decreases WriterLeft(s)
  {
    hide Inv, Typed, Next, WriterLeft, AllOut, GraceOut, NoneUnmarked;
    if s.writer.Asleep? && s.queue == [] {
      acts, r := [], s;
    } else {
      var m := WriteFalls(s);
      StepKeeps(s, Write, m);
      UnmarkedStep(s, m);
      var more;
      more, r := WriterFinishes(m);
      acts := [Write] + more;
      assert acts[1..] == more;
    }
  }

  /** Every buffer of a thread that has bytes in it is marked. */
  predicate NoneUnmarked(s: State) {
    forall v, b :: 0 <= v < |s.threads| && 0 <= b < |s.bufs| && b in s.threads[v].bufs && s.bufs[b].len > 0 ==>
      s.bufs[b].writing
  }

  lemma UnmarkedStep(s: State, r: State)
    requires Typed(s) && Next(s, Write) == Some(r)
    ensures NoneUnmarked(s) ==> NoneUnmarked(r)
  {
  }

  // ---- grace periods end ----

  /** A grace period waits for threads in a read section only. */
  predicate GraceOk(s: State) {
    s.writer.Grace? ==> forall t :: t in s.writer.waits ==> t < |s.threads| && !s.threads[t].pc.Out?
  }

  lemma ThreadGrace(s: State, t: nat, r: State)
    requires Typed(s) && t < |s.threads| && ThreadStep(s, t) == Some(r) && GraceOk(s)
    ensures GraceOk(r)
  {
    hide Stored, ToTail, Typed;
  }

  lemma StepGrace(s: State, a: Action, r: State)
    requires Typed(s) && Next(s, a) == Some(r) && GraceOk(s)
    ensures GraceOk(r)
  {
    hide ThreadStep;
    if a.Step? {
      ThreadGrace(s, a.t, r);
    }
  }

  lemma {:induction false} RunGrace(s: State, acts: seq<Action>, r: State)
    requires Inv(s) && Exec(s, acts) == Some(r) && GraceOk(s)
    ensures GraceOk(r)
    decreases |acts|
  {
    hide Inv, Typed, Next, GraceOk;
    InvTyped(s);
    if acts != [] {
      var m := Next(s, acts[0]).value;
      StepKeeps(s, acts[0], m);
      StepGrace(s, acts[0], m);
      RunGrace(m, acts[1..], r);
    }
  }

  // ---- a flush on its own ----

  /** The buffers of thread u that hold bytes are marked, but for one. */
  predicate MarkedBut(s: State, u: nat, but: Option<nat>)
    requires u < |s.threads|
  {
    forall b :: 0 <= b < |s.bufs| && b in s.threads[u].bufs && s.bufs[b].len > 0 && but != Some(b) ==> s.bufs[b].writing
  }

  /** t is in a flush that has done its work for the threads before the one it is at. */
  predicate Sweeps(s: State, t: nat) {
    && t < |s.threads| && (forall v :: 0 <= v < |s.threads| && v != t ==> s.threads[v].pc.Out?)
    && match s.threads[t].pc
       case FLoad(u) => forall v :: 0 <= v < u && v < |s.threads| ==> MarkedBut(s, v, None)
       case FMark(u, b) =>
         u < |s.threads| && MarkedBut(s, u, Some(b)) && forall v :: 0 <= v < u && v < |s.threads| ==> MarkedBut(s, v, None)
       case FEnq(u, b) => u < |s.threads| && forall v :: 0 <= v <= u && v < |s.threads| ==> MarkedBut(s, v, None)
       case Leave => forall v :: 0 <= v < |s.threads| ==> MarkedBut(s, v, None)
       case Out => forall v :: 0 <= v < |s.threads| ==> MarkedBut(s, v, None)
       case _ => false
  }

  function SweepLeft(s: State, t: nat): int
    requires t < |s.threads|
  {
    var n := |s.threads|;
    match s.threads[t].pc
    case FLoad(u) => if u <= n then 3 * (n - u) + 2 else 2
    case FMark(u, _) => 3 * (n - u) + 1
    case FEnq(u, _) => 3 * (n - u)
    case Leave => 1
    case _ => 0
  }

  lemma SweepMark(s: State, t: nat, u: nat, b: nat, r: State)
    requires Inv(s) && Sweeps(s, t) && s.threads[t].pc == FMark(u, b) && ThreadStep(s, t) == Some(r)
    ensures Sweeps(r, t)
  {
    hide BufOk, Disjoint, WriterOk, ThreadOk;
    assert Touches(s.threads[t].pc)[0] == b;
    forall v | 0 <= v <= u && v < |s.threads|
      ensures MarkedBut(r, v, None)
    {
      assert MarkedBut(s, v, if v == u then Some(b) else None);
    }
  }

  lemma MarkedSame(s: State, r: State, v: nat, but: Option<nat>)
    requires v < |s.threads| == |r.threads| && r.bufs == s.bufs && r.threads[v].bufs == s.threads[v].bufs
    requires MarkedBut(s, v, but)
    ensures MarkedBut(r, v, but)
  {
  }

  lemma StoringApart(s: State, u: nat)
    requires Inv(s) && u < |s.threads|
    ensures MarkedBut(s, u, s.threads[u].storing)
  {
    hide Inv;
    forall b | 0 <= b < |s.bufs| && b in s.threads[u].bufs && s.bufs[b].len > 0 && !s.bufs[b].writing
      ensures s.threads[u].storing == Some(b)
    {
      OnlyStoring(s, u, b);
    }
  }

  lemma SweepLoad(s: State, t: nat, u: nat, r: State)
    requires Inv(s) && Sweeps(s, t) && s.threads[t].pc == FLoad(u) && ThreadStep(s, t) == Some(r)
    ensures Sweeps(r, t)
  {
    hide BufOk, Disjoint, WriterOk, ThreadOk, MarkedBut;
    assert r.bufs == s.bufs && |r.threads| == |s.threads|;
    assert forall v :: 0 <= v < |s.threads| ==> r.threads[v].bufs == s.threads[v].bufs;
    forall v: nat | v < u && v < |s.threads|
      ensures MarkedBut(r, v, None)
    {
      assert MarkedBut(s, v, None);
      MarkedSame(s, r, v, None);
    }
    if u < |s.threads| {
      StoringApart(s, u);
      MarkedSame(s, r, u, s.threads[u].storing);
    }
  }

  lemma SweepRest(s: State, t: nat, r: State)
    requires Typed(s) && Sweeps(s, t) && (s.threads[t].pc.FEnq? || s.threads[t].pc.Leave?) && ThreadStep(s, t) == Some(r)
    ensures Sweeps(r, t)
  {
    var pc := s.threads[t].pc;
    hide MarkedBut;
    assert r.bufs == s.bufs && |r.threads| == |s.threads|;
    assert forall v :: 0 <= v < |s.threads| ==> r.threads[v].bufs == s.threads[v].bufs;
    var n := if pc.FEnq? then pc.u + 1 else |s.threads|;
    forall v: nat | v < |s.threads| && v < n
      ensures MarkedBut(r, v, None)
    {
      assert MarkedBut(s, v, None);
      MarkedSame(s, r, v, None);
    }
  }

  lemma SweepStep(s: State, t: nat) returns (r: State)
    requires Inv(s) && Sweeps(s, t) && !s.threads[t].pc.Out?
    ensures Typed(s) && Next(s, Step(t)) == Some(r) && Sweeps(r, t)
    ensures 0 <= SweepLeft(r, t) < SweepLeft(s, t)
    ensures r.writer == s.writer || (r.writer.Grace? && s.writer.Grace?)
    ensures |r.bufs| == |s.bufs| && |r.threads| == |s.threads| && r.place == s.place
    ensures forall v :: 0 <= v < |s.threads| ==> r.threads[v].bufs == s.threads[v].bufs
  {
    hide BufOk, Disjoint, WriterOk, ThreadOk;
    r := ThreadStep(s, t).value;
    var pc := s.threads[t].pc;
    if pc.FMark? || pc.FEnq? {
      assert Touches(pc)[0] == pc.b;
    }
    match pc
    case FMark(u, b) => SweepMark(s, t, u, b, r);
    case FLoad(u) => SweepLoad(s, t, u, r);
    case _ => SweepRest(s, t, r);
  }

  lemma {:induction false} SweepRun(s: State, t: nat) returns (acts: seq<Action>, r: State)
    requires Inv(s) && Sweeps(s, t)
    ensures (forall k :: 0 <= k < |acts| ==> acts[k] == Step(t)) && Exec(s, acts) == Some(r)
    ensures Inv(r) && Sweeps(r, t) && r.threads[t].pc.Out? && |r.bufs| == |s.bufs| && r.place == s.place
    ensures |r.threads| == |s.threads| && forall v :: 0 <= v < |s.threads| ==> r.threads[v].bufs == s.threads[v].bufs
    decreases SweepLeft(s, t)
  {
    hide Inv, Typed, Next, Sweeps, SweepLeft;
    assert t < |s.threads| by { SweepAt(s, t); }
    if s.threads[t].pc.Out? {
      acts, r := [], s;
    } else {
      var m := SweepStep(s, t);
      StepKeeps(s, Step(t), m);
      var more;
      more, r := SweepRun(m, t);
      acts := [Step(t)] + more;
      assert acts[1..] == more;
    }
  }

  lemma SweepAt(s: State, t: nat)
    requires Sweeps(s, t)
    ensures t < |s.threads|
  {
  }

  // ---- together ----

  lemma SweepStarts(s: State, t: nat, r: State)
    requires Typed(s) && AllOut(s) && Next(s, Flush(t)) == Some(r)
    ensures Sweeps(r, t) && r.bufs == s.bufs && |r.threads| == |s.threads| && r.place == s.place
    ensures forall v :: 0 <= v < |s.threads| ==> r.threads[v].bufs == s.threads[v].bufs
  {
  }

  lemma SweepEnds(s: State, t: nat)
    requires Sweeps(s, t) && s.threads[t].pc.Out?
    ensures AllOut(s) && NoneUnmarked(s)
  {
    forall v, b | 0 <= v < |s.threads| && 0 <= b < |s.bufs| && b in s.threads[v].bufs && s.bufs[b].len > 0
      ensures s.bufs[b].writing
    {
      assert MarkedBut(s, v, None);
    }
  }

  /** With nobody in a read section and the writer idle, nothing is marked. */
  lemma IdleUnmarked(s: State, b: nat)
    requires Inv(s) && AllOut(s) && s.writer.Asleep? && s.queue == [] && b < |s.bufs|
    ensures !s.bufs[b].writing
  {
    hide ThreadOk, Disjoint;
    assert BufOk(s, b);
    NoMarkers(s.threads, b);
  }

  lemma NoGrace(s: State)
    requires GraceOk(s) && AllOut(s)
    ensures GraceOut(s)
  {
    assert s.writer.Grace? ==> forall t :: t !in s.writer.waits;
  }

  lemma InitialGrace(s: State)
    requires Initial(s)
    ensures GraceOk(s)
  {
  }

  lemma FlushCan(s: State, t: nat)
    requires Typed(s) && AllOut(s) && t < |s.threads|
    ensures Next(s, Flush(t)).Some?
  {
  }

  lemma StillOut(s: State, r: State)
    requires AllOut(s) && r.threads == s.threads
    ensures AllOut(r)
  {
  }

  lemma OneStep(s: State, a: Action, r: State)
    requires Typed(s) && Next(s, a) == Some(r)
    ensures Exec(s, [a]) == Some(r)
  {
    hide Typed, Next;
    assert [a][1..] == [] && Exec(r, []) == Some(r);
  }

  /** A run of the flush alone marks all that the threads hold. */
  lemma FlushAlone(s0: State, pre: seq<Action>, s: State, t: nat) returns (acts: seq<Action>, r: State)
    requires Initial(s0) && Exec(s0, pre) == Some(s) && AllOut(s) && t < |s.threads|
    ensures (forall k :: 0 <= k < |acts| ==> acts[k] in {Flush(t), Step(t)}) && Exec(s, acts) == Some(r)
    ensures Exec(s0, pre + acts) == Some(r) && Inv(r) && AllOut(r) && GraceOut(r) && NoneUnmarked(r)
    ensures |r.bufs| == |s.bufs| && r.place == s.place && |r.threads| == |s.threads|
    ensures forall v :: 0 <= v < |s.threads| ==> r.threads[v].bufs == s.threads[v].bufs
  {
    hide Exec, Inv, Typed, Sweeps, AllOut, GraceOk, GraceOut, NoneUnmarked, SweepLeft;
    FromInitial(s0, pre, s);
    InvTyped(s);
    FlushCan(s, t);
    var m := Next(s, Flush(t)).value;
    SweepStarts(s, t, m);
    OneStep(s, Flush(t), m);
    StepKeeps(s, Flush(t), m);
    var a;
    a, r := SweepRun(m, t);
    SweepEnds(r, t);
    acts := [Flush(t)] + a;
    ExecConcat(s, [Flush(t)], m, a, r);
    ExecConcat(s0, pre, s, acts, r);
    InitialHolds(s0);
    InitialGrace(s0);
    RunGrace(s0, pre + acts, r);
    NoGrace(r);
  }

  /** A flush works: from every state in which no thread is in a call there is a run of the flush and the
      writer alone after which all that the threads ever stored has been written, in the order it was
      stored, provided each event goes behind the last one. */
  lemma FlushWritesAll(s0: State, pre: seq<Action>, s: State, t: nat)
    requires Initial(s0) && Exec(s0, pre) == Some(s) && AllOut(s) && t < |s.threads| && s.place.AtEnd?
    ensures exists acts: seq<Action> ::
              && (forall k :: 0 <= k < |acts| ==> acts[k] in {Flush(t), Step(t), Write})
              && Exec(s, acts).Some?
              && var r := Exec(s, acts).value;
                 && |r.bufs| == |s.bufs|
                 && forall v, b :: 0 <= v < |s.threads| && 0 <= b < |s.bufs| && b in s.threads[v].bufs ==>
                      r.bufs[b].written == r.bufs[b].stored
  {
    hide Exec, Inv, AllOut, GraceOut, NoneUnmarked, Next;
    var a, n := FlushAlone(s0, pre, s, t);
    var c, r := WriterFinishes(n);
    ExecConcat(s, a, n, c, r);
    ExecConcat(s0, pre + a, n, c, r);
    StillOut(n, r);
    forall v, b | 0 <= v < |s.threads| && 0 <= b < |s.bufs| && b in s.threads[v].bufs
      ensures r.bufs[b].written == r.bufs[b].stored
    {
      AllWrittenAt(s0, pre + a + c, r, v, b);
    }
  }

  lemma AllWrittenAt(s0: State, acts: seq<Action>, r: State, v: nat, b: nat)
    requires Initial(s0) && Exec(s0, acts) == Some(r) && r.place.AtEnd? && AllOut(r) && NoneUnmarked(r)
    requires r.writer.Asleep? && r.queue == [] && v < |r.threads| && b < |r.bufs| && b in r.threads[v].bufs
    ensures r.bufs[b].written == r.bufs[b].stored
  {
    hide Exec, Inv, AllOut;
    FromInitial(s0, acts, r);
    IdleUnmarked(r, b);
    SamePlace(s0, acts, r);
    NothingIsLostIff(s0, acts, r, b);
  }

  lemma {:induction false} SamePlace(s: State, acts: seq<Action>, r: State)
    requires Exec(s, acts) == Some(r)
    ensures r.place == s.place
    decreases |acts|
  {
    hide Typed, Next;
    if acts != [] {
      NextPlace(s, acts[0], Next(s, acts[0]).value);
      SamePlace(Next(s, acts[0]).value, acts[1..], r);
    }
  }

  lemma NextPlace(s: State, a: Action, r: State)
    requires Typed(s) && Next(s, a) == Some(r)
    ensures r.place == s.place
  {
    hide ThreadStep;
    if a.Step? {
      ThreadBufs(s, a.t, r);
    }
  }

  // ---- one event on its own ----

  /** All after the first are t's own steps. */
  predicate OnlySteps(acts: seq<Action>, t: nat) {
    forall k :: 0 <= k < |acts| ==> acts[k] == Step(t)
  }

  lemma Prepend(s: State, a: Action, m: State, acts: seq<Action>, r: State)
    requires Typed(s) && Next(s, a) == Some(m) && Exec(m, acts) == Some(r)
    ensures Exec(s, [a] + acts) == Some(r)
  {
    hide Typed, Next;
    assert ([a] + acts)[1..] == acts;
  }

  /** The event went behind what buffer b held, which is t's storing buffer now. */
  predicate StoredIn(s: State, t: nat, b: nat, n: nat, r: State) {
    && t < |r.threads| == |s.threads| && b < |s.bufs| == |r.bufs| && s.bufs[b].len <= |s.bufs[b].area|
    && s.bufs[b].len + n <= BUF_SIZE == |s.bufs[b].area| == |r.bufs[b].area|
    && r.threads[t].storing == Some(b) && r.bufs[b].stored == s.bufs[b].stored + Cells(s.stores, n)
    && r.bufs[b].len == s.bufs[b].len + n
    && (s.place.AtEnd? ==> r.bufs[b].area[..r.bufs[b].len] == s.bufs[b].area[..s.bufs[b].len] + Cells(s.stores, n))
    && forall c :: 0 <= c < |s.bufs| && c != b ==> r.bufs[c].(writing := s.bufs[c].writing) == s.bufs[c]
  }

  predicate Dropped(s: State, t: nat, r: State) {
    && t < |r.threads| == |s.threads| && |r.bufs| == |s.bufs| && r.threads[t].storing == None
    && forall c :: 0 <= c < |s.bufs| ==> r.bufs[c].(writing := s.bufs[c].writing) == s.bufs[c]
  }

  lemma {:induction false} LeaveAlone(s: State, t: nat) returns (acts: seq<Action>, r: State)
    requires Inv(s) && t < |s.threads| && s.threads[t].pc == Leave
    ensures OnlySteps(acts, t) && Exec(s, acts) == Some(r) && r.bufs == s.bufs && r.queue == s.queue
    ensures r.threads == s.threads[t := s.threads[t].(pc := Out)]
  {
    hide BufOk, ThreadOk, Disjoint, WriterOk;
    r := ThreadStep(s, t).value;
    acts := [Step(t)];
    OneStep(s, Step(t), r);
  }

  lemma StoreAlone(s: State, t: nat, b: nat, n: nat) returns (acts: seq<Action>, r: State)
    requires Inv(s) && t < |s.threads| && s.threads[t].pc == Storing(b, n)
    ensures OnlySteps(acts, t) && Exec(s, acts) == Some(r) && StoredIn(s, t, b, n, r)
    ensures t < |r.threads| && r.threads[t] == s.threads[t].(pc := Out) && r.queue == s.queue
  {
    hide BufOk, Disjoint, WriterOk, Put;
    assert ThreadOk(s, t) && Touches(s.threads[t].pc)[0] == b;
    hide ThreadOk, Stored;
    var m := ThreadStep(s, t).value;
    StepKeeps(s, Step(t), m);
    StoredParts(s.bufs[b], s.place, s.stores, n);
    StoredCells(s.bufs[b], s.place, s.stores, n);
    var more;
    more, r := LeaveAlone(m, t);
    acts := [Step(t)] + more;
    Prepend(s, Step(t), m, more, r);
  }

  /** From the choice of the next buffer: the first of the list, if it is not marked. */
  lemma NextAlone(s: State, t: nat, n: nat) returns (acts: seq<Action>, r: State)
    requires Inv(s) && t < |s.threads| && s.threads[t].pc == NextBuf(n)
    ensures OnlySteps(acts, t) && Exec(s, acts) == Some(r)
    ensures t < |r.threads| && r.threads[t].pc == Out && r.threads[t].bufs == s.threads[t].bufs && r.queue == s.queue
    ensures var l := s.threads[t].bufs;
            && (l != [] ==> l[0] < |s.bufs|)
            && (if l != [] && !s.bufs[l[0]].writing then StoredIn(s, t, l[0], n, r) else Dropped(s, t, r))
  {
    hide BufOk, Disjoint, WriterOk, StoredIn;
    assert ThreadOk(s, t);
    hide ThreadOk;
    var l := s.threads[t].bufs;
    var m := ThreadStep(s, t).value;
    StepKeeps(s, Step(t), m);
    var more;
    if l != [] && !s.bufs[l[0]].writing {
      more, r := StoreAlone(m, t, l[0], n);
      SameStored(s, m, t, l[0], n, r);
    } else {
      more, r := LeaveAlone(m, t);
    }
    acts := [Step(t)] + more;
    Prepend(s, Step(t), m, more, r);
  }

  /** What was stored since m was stored since s, if only marks were set in between. */
  lemma SameStored(s: State, m: State, t: nat, b: nat, n: nat, r: State)
    requires StoredIn(m, t, b, n, r) && |m.bufs| == |s.bufs| && |m.threads| == |s.threads|
    requires m.stores == s.stores && m.place == s.place
    requires forall c :: 0 <= c < |s.bufs| ==> m.bufs[c].(writing := s.bufs[c].writing) == s.bufs[c]
    ensures StoredIn(s, t, b, n, r)
  {
    hide Cells;
  }

  predicate OnlyMarks(s: State, m: State, t: nat) {
    && t < |m.threads| == |s.threads| && |m.bufs| == |s.bufs| && m.stores == s.stores && m.place == s.place
    && forall c :: 0 <= c < |s.bufs| ==> m.bufs[c].(writing := s.bufs[c].writing) == s.bufs[c]
  }

  /** Retiring buffer b: it is marked, in the queue unless it was marked before, and last in the list. */
  lemma RetireAlone(s: State, t: nat, b: nat, n: nat) returns (acts: seq<Action>, m: State)
    requires Inv(s) && t < |s.threads| && s.threads[t].pc == Retire(b, n)
    ensures OnlySteps(acts, t) && Exec(s, acts) == Some(m) && Inv(m) && OnlyMarks(s, m, t) && b < |s.bufs|
    ensures m.threads[t] == Thread(NextBuf(n), ToTail(s.threads[t].bufs, b), None)
    ensures m.queue == if s.bufs[b].writing then s.queue else s.queue + [b]
    ensures forall c :: 0 <= c < |s.bufs| ==> m.bufs[c].writing == (s.bufs[c].writing || c == b)
  {
    hide Inv, ToTail, Typed;
    InvAt(s, t);
    assert Touches(s.threads[t].pc)[0] == b;
    var m1 := RetireStep(s, t, b, n);
    StepKeeps(s, Step(t), m1);
    if s.bufs[b].writing {
      m := MoveStep(m1, t, b, n);
      StepKeeps(m1, Step(t), m);
      acts := [Step(t), Step(t)];
      OneStep(m1, Step(t), m);
      Prepend(s, Step(t), m1, [Step(t)], m);
      assert [Step(t)] + [Step(t)] == acts;
    } else {
      var m2 := EnqStep(m1, t, b, n);
      StepKeeps(m1, Step(t), m2);
      InvAt(m2, t);
      m := MoveStep(m2, t, b, n);
      StepKeeps(m2, Step(t), m);
      acts := [Step(t), Step(t), Step(t)];
      OneStep(m2, Step(t), m);
      Prepend(m1, Step(t), m2, [Step(t)], m);
      Prepend(s, Step(t), m1, [Step(t)] + [Step(t)], m);
      assert [Step(t)] + ([Step(t)] + [Step(t)]) == acts;
    }
  }

  lemma RetireStep(s: State, t: nat, b: nat, n: nat) returns (m: State)
    requires Typed(s) && t < |s.threads| && s.threads[t].pc == Retire(b, n) && b < |s.bufs|
    ensures Next(s, Step(t)) == Some(m) && OnlyMarks(s, m, t) && m.queue == s.queue
    ensures m.threads[t] == s.threads[t].(pc := if s.bufs[b].writing then MoveOn(b, n) else Enq(b, n))
    ensures forall c :: 0 <= c < |s.bufs| ==> m.bufs[c].writing == (s.bufs[c].writing || c == b)
  {
    m := ThreadStep(s, t).value;
  }

  lemma EnqStep(s: State, t: nat, b: nat, n: nat) returns (m: State)
    requires Inv(s) && t < |s.threads| && s.threads[t].pc == Enq(b, n)
    ensures Typed(s) && Next(s, Step(t)) == Some(m) && m.bufs == s.bufs && OnlyMarks(s, m, t) && m.queue == s.queue + [b]
    ensures m.threads[t] == s.threads[t].(pc := MoveOn(b, n))
  {
    hide BufOk, ThreadOk, Disjoint, WriterOk;
    m := ThreadStep(s, t).value;
  }

  lemma MoveStep(s: State, t: nat, b: nat, n: nat) returns (m: State)
    requires Inv(s) && t < |s.threads| && s.threads[t].pc == MoveOn(b, n)
    ensures Typed(s) && Next(s, Step(t)) == Some(m) && m.bufs == s.bufs && OnlyMarks(s, m, t) && m.queue == s.queue
    ensures m.threads[t] == Thread(NextBuf(n), ToTail(s.threads[t].bufs, b), None)
  {
    hide BufOk, ThreadOk, Disjoint, WriterOk, ToTail;
    m := ThreadStep(s, t).value;
  }

  /** Where an event of n bytes goes if nobody interferes: behind the events of the storing buffer if that is
      not marked and has room; else, with that buffer marked and last, into the first of the list if that
      is not marked; else nowhere. */
  predicate Outcome(s: State, t: nat, n: nat, r: State) {
    && t < |s.threads| && t < |r.threads| && r.threads[t].pc == Out
    && match s.threads[t].storing
       case None =>
         var l := s.threads[t].bufs;
         && r.threads[t].bufs == l && r.queue == s.queue && (l != [] ==> l[0] < |s.bufs|)
         && (if l != [] && !s.bufs[l[0]].writing then StoredIn(s, t, l[0], n, r) else Dropped(s, t, r))
       case Some(b) =>
         b < |s.bufs| &&
         if !s.bufs[b].writing && s.bufs[b].len + n <= 32768 then
           StoredIn(s, t, b, n, r) && r.threads[t].bufs == s.threads[t].bufs && r.queue == s.queue
         else
           var l := r.threads[t].bufs;
           && b in s.threads[t].bufs && l == ToTail(s.threads[t].bufs, b) && l != [] && l[0] < |s.bufs|
           && r.queue == (if s.bufs[b].writing then s.queue else s.queue + [b])
           && (if l[0] != b && !s.bufs[l[0]].writing then StoredIn(s, t, l[0], n, r) else Dropped(s, t, r))
  }

  /** A call of the trace functions that nobody interferes with has that outcome. */
  lemma EventAlone(s: State, t: nat, len: nat) returns (acts: seq<Action>, r: State)
    requires Inv(s) && t < |s.threads| && s.threads[t].pc == Out && Total(len) <= BUF_SIZE
    ensures OnlySteps(acts, t) && Typed(s) && Next(s, Trace(t, len)).Some?
    ensures Exec(s, [Trace(t, len)] + acts) == Some(r) && Outcome(s, t, Total(len), r)
  {
    hide Inv, StoredIn, Dropped, ToTail;
    InvAt(s, t);
    var n := Total(len);
    var m := Next(s, Trace(t, len)).value;
    StepKeeps(s, Trace(t, len), m);
    acts, r := LookAlone(m, t, n);
    Prepend(s, Trace(t, len), m, acts, r);
    OutcomeSame(s, m, t, n, r);
  }

  lemma OutcomeSame(s: State, m: State, t: nat, n: nat, r: State)
    requires t < |s.threads| && t < |m.threads| && m == At(s, t, m.threads[t].pc) && Outcome(m, t, n, r)
    ensures Outcome(s, t, n, r)
  {
    hide ToTail, Cells;
  }

  lemma LookAlone(s: State, t: nat, n: nat) returns (acts: seq<Action>, r: State)
    requires Inv(s) && t < |s.threads| && s.threads[t].pc == Look(n)
    ensures OnlySteps(acts, t) && Exec(s, acts) == Some(r) && Outcome(s, t, n, r)
  {
    hide Inv, StoredIn, Dropped, ToTail, Typed;
    InvAt(s, t);
    if s.threads[t].storing.Some? {
      StoringListed(s, t);
    }
    var m := LookStep(s, t, n);
    StepKeeps(s, Step(t), m);
    var more;
    if s.threads[t].storing.None? {
      more, r := NextAlone(m, t, n);
      MarksSame(s, m, t, n, r);
    } else {
      var b := s.threads[t].storing.value;
      if !s.bufs[b].writing && s.bufs[b].len + n <= 32768 {
        more, r := StoreAlone(m, t, b, n);
        SameStored(s, m, t, b, n, r);
      } else {
        var a, m1 := RetireAlone(m, t, b, n);
        ToTailSame(s.threads[t].bufs, b);
        var c;
        c, r := NextAlone(m1, t, n);
        more := a + c;
        ExecConcat(m, a, m1, c, r);
        MarksSame(s, m1, t, n, r);
      }
    }
    acts := [Step(t)] + more;
    Prepend(s, Step(t), m, more, r);
  }

  lemma MarksSame(s: State, m: State, t: nat, n: nat, r: State)
    requires OnlyMarks(s, m, t)
    ensures forall b: nat :: StoredIn(m, t, b, n, r) ==> StoredIn(s, t, b, n, r)
    ensures Dropped(m, t, r) ==> Dropped(s, t, r)
  {
    forall b: nat | StoredIn(m, t, b, n, r)
      ensures StoredIn(s, t, b, n, r)
    {
      SameStored(s, m, t, b, n, r);
    }
  }

  lemma StoringListed(s: State, t: nat)
    requires Inv(s) && t < |s.threads| && s.threads[t].storing.Some?
    ensures s.threads[t].storing.value in s.threads[t].bufs
  {
    hide BufOk, Disjoint, WriterOk;
    assert ThreadOk(s, t);
  }

  lemma LookStep(s: State, t: nat, n: nat) returns (m: State)
    requires Inv(s) && t < |s.threads| && s.threads[t].pc == Look(n)
    ensures Typed(s) && Next(s, Step(t)) == Some(m) && m.bufs == s.bufs && OnlyMarks(s, m, t) && m.queue == s.queue
    ensures m.threads[t].storing == s.threads[t].storing && m.threads[t].bufs == s.threads[t].bufs
    ensures match s.threads[t].storing
            case None => m.threads[t].pc == NextBuf(n)
            case Some(b) =>
              && b < |s.bufs|
              && m.threads[t].pc == if !s.bufs[b].writing && s.bufs[b].len + n <= 32768 then Storing(b, n) else Retire(b, n)
  {
    hide BufOk, ThreadOk, Disjoint, WriterOk;
    m := ThreadStep(s, t).value;
  }

  // ---- what a flush waits for ----

  /** A flush waits until the shared queue is empty. That holds as soon as the writer has taken the buffers:
      a marked buffer, none being on its way to the queue, is then in the writer's hands, and its bytes are
      written exactly if the writer has come to it. */
  lemma FlushWaitMeans(s: State, acts: seq<Action>, r: State, b: nat)
    requires Initial(s) && Exec(s, acts) == Some(r) && b < |r.bufs| && r.queue == []
    requires forall t :: 0 <= t < |r.threads| ==> !Marked(r.threads[t].pc, b)
    ensures r.bufs[b].writing <==> b in r.private || r.writer == Clearing(b)
    ensures r.bufs[b].len <= |r.bufs[b].area| && (Rest(r, b) == [] <==> Flushed(r, b) || r.bufs[b].len == 0)
  {
    hide Exec, Inv, Flushed;
    FromInitial(s, acts, r);
    BufferIsInOnePlace(s, acts, r, b);
    NoneMarked(r.threads, b);
    EntriesIn(r.private, b);
    NothingIsLostIff(s, acts, r, b);
  }

  lemma {:induction false} NoneMarked(ths: seq<Thread>, b: nat)
    requires forall t :: 0 <= t < |ths| ==> !Marked(ths[t].pc, b)
    ensures Markers(ths, b) == 0
  {
    if ths != [] {
      NoneMarked(ths[..|ths| - 1], b);
    }
  }

  /** The writer has taken the buffer of a flush and not written it. */
  function Taken(): State {
    Queued().(private := [0], queue := [], writer := Writer.Spliced)
  }

  /** A run in which the flush's condition holds while the buffer that it marked, with two events in it, has
      not been written. */
  lemma FlushReturnsEarly() returns (acts: seq<Action>)
    ensures Initial(Alone()) && Exec(Alone(), acts) == Some(Taken())
    ensures Taken().queue == [] && AllOut(Taken())
    ensures var buf := Taken().bufs[0];
            buf.writing && buf.written == [] && buf.stored == Cells(0, 16) + Cells(1, 16)
  {
    hide Exec, Inv, Typed, Overwritten;
    var a := StoresTwice();
    var c := FlushesTwice();
    Stays(Queued());
    Goes(Queued(), [], Queued(), Write, Taken());
    assert [] + [Write] == [Write];
    ExecConcat(Alone(), a, Twice(), c, Queued());
    ExecConcat(Alone(), a + c, Queued(), [Write], Taken());
    acts := a + c + [Write];
    WrittenBytes();
    NotWritten();
  }

  lemma NotWritten()
    ensures Overwritten().written == []
  {
  }
}
