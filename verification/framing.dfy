/** Messages on a byte stream: vectored transfers that move any part of what is asked, and the
    framing that survives every fragmentation (shared/mtr-socket.c:69-228, 464-508,
    shared/msg.c:180-189, shared/format-msg.h). */
module Framing {
  import opened Keys

  const ESHUTDOWN: int := -108
  const EINVAL: int := -22
  const CTL_MAX: int := 255
  const DATA_MAX: int := 4096
  const TYPES: int := 4
  const HDR_SIZE: int := 8
  const PAGE_SIZE: int := 4096

  // ---- vectors ----

  /** One element of an iovec: bytes base to base + len of the memory it points into. */
  datatype Slice = Slice(base: nat, len: nat)

  function Total(v: seq<Slice>): nat {
    if v == [] then 0 else v[0].len + Total(v[1..])
  }

  /** The address of the j-th byte that the vector describes. */
  function Addr(v: seq<Slice>, j: nat): (a: nat)
    requires j < Total(v)
  {
    if j < v[0].len then v[0].base + j else Addr(v[1..], j - v[0].len)
  }

  predicate Fits(v: seq<Slice>, n: nat) {
    forall k :: 0 <= k < |v| ==> v[k].base + v[k].len <= n
  }

  /** No byte is described twice. */
  ghost predicate Separate(v: seq<Slice>) {
    forall i: nat, j: nat :: i < j < Total(v) ==> Addr(v, i) != Addr(v, j)
  }

  lemma {:induction false} AddrFits(v: seq<Slice>, n: nat, j: nat)
    requires Fits(v, n) && j < Total(v)
    ensures Addr(v, j) < n
  {
    if j >= v[0].len {
      AddrFits(v[1..], n, j - v[0].len);
    }
  }

  /** Moving the first element forward by part skips the first part bytes. */
  lemma AddrAdvance(v: seq<Slice>, part: nat, j: nat)
    requires v != [] && part <= v[0].len
    ensures var w := [Slice(v[0].base + part, v[0].len - part)] + v[1..];
            Total(w) + part == Total(v) && (j < Total(w) ==> Addr(w, j) == Addr(v, part + j))
  {
    var w := [Slice(v[0].base + part, v[0].len - part)] + v[1..];
    assert w[1..] == v[1..];
  }

  // ---- a socket that transfers parts ----

  /** One end of a connection. For a sender stream is what has been sent, for a receiver what is
      still to come. plan decides, for every call, how much is moved at most, or that it fails. */
  class Port {
    const sending: bool
    const plan: nat -> int
    var stream: seq<Byte>
    var calls: nat

    constructor (isSender: bool, how: nat -> int, bytes: seq<Byte>)
      ensures sending == isSender && plan == how && stream == bytes
    {
      sending := isSender;
      plan := how;
      stream := bytes;
      calls := 0;
    }

    /** No call fails: each moves at least one byte if there is one. */
    ghost predicate Steady() {
      forall n: nat :: plan(n) >= 0
    }

    /** readv or writev: moves between one and all of the bytes asked for and available, in order;
        zero when the other side is gone; negative on an error. */
    method Transfer(iov: array<Slice>, k: nat, cnt: nat, mem: array<Byte>) returns (n: int)
      requires k + cnt <= iov.Length && Fits(iov[k..k + cnt], mem.Length) && Separate(iov[k..k + cnt])
      requires Total(iov[k..k + cnt]) > 0
      modifies this, mem
      ensures n <= Total(iov[k..k + cnt])
      ensures Steady() ==> n >= 0 && (n == 0 <==> !sending && old(stream) == [])
      ensures n <= 0 ==> stream == old(stream) && mem[..] == old(mem[..])
      ensures n > 0 && sending ==> mem[..] == old(mem[..]) && Sent(old(stream), stream, iov[k..k + cnt], mem[..], n)
      ensures n > 0 && !sending ==> Received(old(stream), stream, iov[k..k + cnt], old(mem[..]), mem[..], n)
    {
      hide Sent, Received, Separate;
      ghost var v := iov[k..k + cnt];
      var want := 0;
      var i := cnt;
      assert iov[k + i..k + cnt] == [];
      while i > 0
        invariant 0 <= i <= cnt && want == Total(iov[k + i..k + cnt])
      {
        i := i - 1;
        assert iov[k + i..k + cnt][0] == iov[k + i];
        assert iov[k + i..k + cnt][1..] == iov[k + i + 1..k + cnt];
        want := want + iov[k + i].len;
      }
      assert iov[k..k + cnt] == iov[k + i..k + cnt];
      var most := plan(calls);
      calls := calls + 1;
      if most < 0 {
        return most;
      }
      n := Min(if most > 0 then most else 1, want);
      if !sending {
        n := Min(n, |stream|);
      }
      if n == 0 {
        return;
      }
      ghost var s0, mem0 := stream, mem[..];
      var bytes := iov[k..k + cnt];
      var j := 0;
      Starts(s0, v, mem0);
      while j < n
        invariant 0 <= j <= n && iov[k..k + cnt] == v
        invariant sending ==> mem[..] == mem0 && Sent(s0, stream, v, mem[..], j)
        invariant !sending ==> |stream| + j == |s0| && Received(s0, stream, v, mem0, mem[..], j)
      {
        AddrFits(v, mem.Length, j);
        var a := Addr(bytes, j);
        ghost var m, mem1 := stream, mem[..];
        if sending {
          stream := stream + [mem[a]];
          SentOne(s0, m, v, mem0, j);
        } else {
          mem[a] := stream[0];
          stream := stream[1..];
          assert mem[..] == mem1[a := m[0]];
          ReceivedOne(s0, m, v, mem0, mem1, j);
        }
        j := j + 1;
      }
    }
  }

  lemma SentOne(b: seq<Byte>, m: seq<Byte>, v: seq<Slice>, mem: seq<Byte>, j: nat)
    requires Fits(v, |mem|) && j < Total(v) && Sent(b, m, v, mem, j)
    ensures Addr(v, j) < |mem| && Sent(b, m + [mem[Addr(v, j)]], v, mem, j + 1)
  {
    AddrFits(v, |mem|, j);
  }

  lemma ReceivedOne(b: seq<Byte>, m: seq<Byte>, v: seq<Slice>, mem0: seq<Byte>, mem: seq<Byte>, j: nat)
    requires Separate(v) && j < Total(v) && Fits(v, |mem|) && Received(b, m, v, mem0, mem, j) && m != []
    ensures Addr(v, j) < |mem| && Received(b, m[1..], v, mem0, mem[Addr(v, j) := m[0]], j + 1)
  {
    AddrFits(v, |mem|, j);
    assert m[1..] == b[j + 1..];
  }

  /** What a completed transfer has done with the vector's bytes. */
  ghost predicate Sent(before: seq<Byte>, after: seq<Byte>, v: seq<Slice>, mem: seq<Byte>, done: nat)
    requires done <= Total(v) && Fits(v, |mem|)
  {
    && |after| == |before| + done && before <= after
    && forall j: nat :: j < done ==> Addr(v, j) < |mem| && after[|before| + j] == mem[Addr(v, j)]
  }

  ghost predicate Received(before: seq<Byte>, after: seq<Byte>, v: seq<Slice>, mem0: seq<Byte>, mem: seq<Byte>, done: nat)
    requires done <= Total(v)
  {
    && |mem| == |mem0| && done <= |before| && after == before[done..]
    && (forall j: nat :: j < done ==> Addr(v, j) < |mem| && mem[Addr(v, j)] == before[j])
    && (forall a :: 0 <= a < |mem| && (forall j: nat :: j < done ==> Addr(v, j) != a) ==> mem[a] == mem0[a])
  }

  /** The vector w is what is left of v after its first done bytes. */
  ghost predicate Rest(v: seq<Slice>, w: seq<Slice>, done: nat) {
    && Total(w) + done == Total(v)
    && forall j: nat :: j < Total(w) ==> Addr(w, j) == Addr(v, done + j)
  }

  lemma RestSeparate(v: seq<Slice>, w: seq<Slice>, done: nat)
    requires Separate(v) && Rest(v, w, done)
    ensures Separate(w)
  {
    forall i: nat, j: nat | i < j < Total(w)
      ensures Addr(w, i) != Addr(w, j)
    {
      assert Addr(v, done + i) != Addr(v, done + j);
    }
  }

  lemma RestAdvance(v: seq<Slice>, w: seq<Slice>, done: nat, part: nat)
    requires Rest(v, w, done) && w != [] && part <= w[0].len
    ensures Rest(v, [Slice(w[0].base + part, w[0].len - part)] + w[1..], done + part)
  {
    var x := [Slice(w[0].base + part, w[0].len - part)] + w[1..];
    AddrAdvance(w, part, 0);
    forall j: nat | j < Total(x)
      ensures Addr(x, j) == Addr(v, done + part + j)
    {
      AddrAdvance(w, part, j);
    }
  }

  lemma RestDrop(v: seq<Slice>, w: seq<Slice>, done: nat)
    requires Rest(v, w, done) && w != [] && w[0].len == 0
    ensures Rest(v, w[1..], done)
  {
    forall j: nat | j < Total(w[1..])
      ensures Addr(w[1..], j) == Addr(v, done + j)
    {
      assert Addr(w, j) == Addr(w[1..], j);
    }
  }

  lemma SentMore(b: seq<Byte>, m: seq<Byte>, a: seq<Byte>, v: seq<Slice>, w: seq<Slice>, mem: seq<Byte>, done: nat, n: nat)
    requires Fits(v, |mem|) && Rest(v, w, done) && Sent(b, m, v, mem, done) && n <= Total(w)
    requires |a| == |m| + n && m <= a
    requires forall j: nat :: j < n ==> Addr(w, j) < |mem| && a[|m| + j] == mem[Addr(w, j)]
    ensures Sent(b, a, v, mem, done + n)
  {
    forall j: nat | j < done + n
      ensures Addr(v, j) < |mem| && a[|b| + j] == mem[Addr(v, j)]
    {
      if j >= done {
        assert Addr(w, j - done) == Addr(v, j);
        assert a[|m| + (j - done)] == mem[Addr(w, j - done)];
      } else {
        assert a[|b| + j] == m[|b| + j];
      }
    }
  }

  lemma ReceivedMore(b: seq<Byte>, m: seq<Byte>, a: seq<Byte>, v: seq<Slice>, w: seq<Slice>,
                     mem0: seq<Byte>, mem1: seq<Byte>, mem: seq<Byte>, done: nat, n: nat)
    requires Separate(v) && Rest(v, w, done) && Received(b, m, v, mem0, mem1, done) && n <= Total(w)
    requires n <= |m| && a == m[n..] && |mem| == |mem1|
    requires forall j: nat :: j < n ==> Addr(w, j) < |mem| && mem[Addr(w, j)] == m[j]
    requires forall x :: 0 <= x < |mem| && (forall j: nat :: j < n ==> Addr(w, j) != x) ==> mem[x] == mem1[x]
    ensures Received(b, a, v, mem0, mem, done + n)
  {
    forall j: nat | j < done + n
      ensures Addr(v, j) < |mem| && mem[Addr(v, j)] == b[j]
    {
      if j >= done {
        assert Addr(w, j - done) == Addr(v, j);
        assert m[j - done] == b[j];
      } else {
        forall i: nat | i < n
          ensures Addr(w, i) != Addr(v, j)
        {
          assert Addr(w, i) == Addr(v, done + i);
        }
      }
    }
    forall x | 0 <= x < |mem| && (forall j: nat :: j < done + n ==> Addr(v, j) != x)
      ensures mem[x] == mem0[x]
    {
      forall j: nat | j < n
        ensures Addr(w, j) != x
      {
        assert Addr(w, j) == Addr(v, done + j);
      }
    }
    assert a == b[done + n..];
  }

  // ---- whole_iovec ----

  lemma SliceTail(a: seq<Slice>, c: seq<Slice>, k: nat, n: nat)
    requires 0 < n && k + n <= |a| && |c| == |a| && forall i :: k < i < k + n ==> c[i] == a[i]
    ensures c[k..k + n] == [c[k]] + a[k..k + n][1..]
    ensures c[k..k + n][1..] == c[k + 1..k + n]
  {
  }

  /** The inner loop of whole_iovec: step over sret bytes, leaving a partly moved element at its
      front. */
  method StepOver(iov: array<Slice>, first: nat, count: nat, moved: nat,
                  ghost v: seq<Slice>, ghost done: nat, ghost size: nat)
    returns (k: nat, cnt: nat)
    requires first + count <= iov.Length && Rest(v, iov[first..first + count], done)
    requires forall i :: first <= i < first + count ==> iov[i].len > 0
    requires moved <= Total(iov[first..first + count]) && Fits(iov[first..first + count], size)
    modifies iov
    ensures k + cnt == first + count && Rest(v, iov[k..k + cnt], done + moved)
    ensures forall i :: k <= i < k + cnt ==> iov[i].len > 0
    ensures Fits(iov[k..k + cnt], size)
  {
    hide Separate, Addr, Total, Rest;
    k, cnt := first, count;
    var sret := moved;
    ghost var at: nat := done;
    while sret > 0 && cnt > 0
      invariant sret >= 0 && k + cnt == first + count
      invariant forall i :: k <= i < k + cnt ==> iov[i].len > 0
      invariant at + sret == done + moved && Rest(v, iov[k..k + cnt], at)
      invariant sret <= Total(iov[k..k + cnt])
      invariant Fits(iov[k..k + cnt], size)
      decreases cnt, sret
    {
      ghost var a := iov[..];
      ghost var x := a[k..k + cnt];
      SliceTail(a, a, k, cnt);
      assert x == iov[k..k + cnt];
      var part: nat := Min(iov[k].len, sret);
      RestAdvance(v, x, at, part);
      AdvancedTotal(x, part);
      iov[k] := Slice(iov[k].base + part, iov[k].len - part);
      sret := sret - part;
      at := at + part;
      ghost var c := iov[..];
      ghost var y := c[k..k + cnt];
      assert y == iov[k..k + cnt] && iov[k + 1..k + cnt] == c[k + 1..k + cnt];
      SliceTail(a, c, k, cnt);
      if iov[k].len == 0 {
        RestDrop(v, y, at);
        DroppedTotal(y);
        k := k + 1;
        cnt := cnt - 1;
      }
    }
    NoTotal(iov[k..k + cnt]);
  }

  /** whole_iovec: call until every byte of the vector has been moved, stepping over the parts that
      were. The vector itself is used up. */
  method WholeIovec(port: Port, iov: array<Slice>, iovcnt: nat, mem: array<Byte>) returns (ret: int)
    requires iovcnt <= iov.Length && Fits(iov[..iovcnt], mem.Length) && Separate(iov[..iovcnt])
    requires forall i :: 0 <= i < iovcnt ==> iov[i].len > 0
    modifies port, iov, mem
    ensures ret <= 0
    ensures ret == 0 && port.sending ==>
      Sent(old(port.stream), port.stream, old(iov[..iovcnt]), mem[..], Total(old(iov[..iovcnt])))
    ensures ret == 0 && !port.sending ==>
      Received(old(port.stream), port.stream, old(iov[..iovcnt]), old(mem[..]), mem[..], Total(old(iov[..iovcnt])))
    ensures port.sending ==> mem[..] == old(mem[..])
    ensures ret < 0 && port.sending ==>
      exists n: nat :: n < Total(old(iov[..iovcnt])) && Sent(old(port.stream), port.stream, old(iov[..iovcnt]), mem[..], n)
    ensures ret < 0 && !port.sending ==>
      exists n: nat :: n < Total(old(iov[..iovcnt]))
                       && Received(old(port.stream), port.stream, old(iov[..iovcnt]), old(mem[..]), mem[..], n)
    ensures port.Steady() && (port.sending || |old(port.stream)| >= Total(old(iov[..iovcnt]))) ==> ret == 0
    ensures port.Steady() && !port.sending && |old(port.stream)| < Total(old(iov[..iovcnt])) ==> ret == ESHUTDOWN
  {
    hide Sent, Received, Separate, Addr, Total, Rest;
    ghost var v := iov[..iovcnt];
    ghost var b := port.stream;
    ghost var mem0 := mem[..];
    ghost var done: nat := 0;
    var k: nat, cnt: nat := 0, iovcnt;
    Starts(b, v, mem0);
    while cnt > 0
      invariant k + cnt == iovcnt && Fits(iov[k..k + cnt], mem.Length)
      invariant forall i :: k <= i < k + cnt ==> iov[i].len > 0
      invariant Rest(v, iov[k..k + cnt], done) && done <= Total(v)
      invariant port.sending ==> mem[..] == mem0 && Sent(b, port.stream, v, mem[..], done)
      invariant !port.sending ==> Received(b, port.stream, v, mem0, mem[..], done)
      decreases Total(v) - done, cnt
    {
      ghost var w := iov[k..k + cnt];
      RestTotal(v, w, done);
      NonEmptyTotal(w);
      RestSeparate(v, w, done);
      ghost var m, mem1 := port.stream, mem[..];
      var sret := port.Transfer(iov, k, cnt, mem);
      if sret < 0 {
        return sret;
      } else if sret == 0 {
        if !port.sending {
          ReceivedLength(b, m, v, mem0, mem1, done);
        }
        return ESHUTDOWN;
      }
      if port.sending {
        SentAgain(b, m, port.stream, v, w, mem[..], done, sret);
      } else {
        ReceivedAgain(b, m, port.stream, v, w, mem0, mem1, mem[..], done, sret);
      }
      k, cnt := StepOver(iov, k, cnt, sret, v, done, mem.Length);
      done := done + sret;
    }
    NoTotal(iov[k..k + cnt]);
    RestTotal(v, iov[k..k + cnt], done);
    ret := 0;
    if !port.sending {
      ReceivedLength(b, port.stream, v, mem0, mem[..], done);
    }
  }

  lemma Starts(b: seq<Byte>, v: seq<Slice>, mem: seq<Byte>)
    requires Fits(v, |mem|)
    ensures Rest(v, v, 0) && Sent(b, b, v, mem, 0) && Received(b, b, v, mem, mem, 0)
    ensures v[..] == v
  {
  }

  lemma RestTotal(v: seq<Slice>, w: seq<Slice>, done: nat)
    requires Rest(v, w, done)
    ensures Total(w) + done == Total(v)
  {
  }

  lemma NonEmptyTotal(w: seq<Slice>)
    requires w != [] && w[0].len > 0
    ensures Total(w) > 0
  {
  }

  lemma NoTotal(w: seq<Slice>)
    ensures w == [] ==> Total(w) == 0
  {
  }

  lemma AdvancedTotal(w: seq<Slice>, part: nat)
    requires w != [] && part <= w[0].len
    ensures Total([Slice(w[0].base + part, w[0].len - part)] + w[1..]) == Total(w) - part
  {
    AddrAdvance(w, part, 0);
  }

  lemma DroppedTotal(w: seq<Slice>)
    requires w != [] && w[0].len == 0
    ensures Total(w[1..]) == Total(w)
  {
  }

  lemma ReceivedLength(b: seq<Byte>, m: seq<Byte>, v: seq<Slice>, mem0: seq<Byte>, mem: seq<Byte>, done: nat)
    requires done <= Total(v) && Received(b, m, v, mem0, mem, done)
    ensures |m| + done == |b|
  {
  }

  lemma SentAgain(b: seq<Byte>, m: seq<Byte>, a: seq<Byte>, v: seq<Slice>, w: seq<Slice>, mem: seq<Byte>, done: nat, n: nat)
    requires Fits(v, |mem|) && Fits(w, |mem|) && Rest(v, w, done) && done <= Total(v) && n <= Total(w)
    requires Sent(b, m, v, mem, done) && Sent(m, a, w, mem, n)
    ensures done + n <= Total(v) && Sent(b, a, v, mem, done + n)
  {
    SentMore(b, m, a, v, w, mem, done, n);
  }

  lemma ReceivedAgain(b: seq<Byte>, m: seq<Byte>, a: seq<Byte>, v: seq<Slice>, w: seq<Slice>,
                      mem0: seq<Byte>, mem1: seq<Byte>, mem: seq<Byte>, done: nat, n: nat)
    requires Separate(v) && Rest(v, w, done) && done <= Total(v) && n <= Total(w)
    requires Received(b, m, v, mem0, mem1, done) && Received(m, a, w, mem1, mem, n)
    ensures done + n <= Total(v) && Received(b, a, v, mem0, mem, done + n)
  {
    ReceivedMore(b, m, a, v, w, mem0, mem1, mem, done, n);
  }

  // ---- messages ----

  datatype Msg = Msg(typ: nat, ctl: seq<Byte>, data: seq<Byte>)

  /** What ngnfs_msg_verify_header lets through. */
  predicate Proper(m: Msg) {
    m.typ < TYPES && |m.ctl| <= CTL_MAX && |m.data| <= DATA_MAX && (m.ctl != [] || m.data != [])
  }

  datatype Header = Header(dataSize: nat, ctlSize: nat, typ: nat)

  /** struct ngnfs_msg_header after its unused crc: le16 data_size, u8 ctl_size, u8 type. */
  function HeaderBytes(m: Msg, crc: seq<Byte>): (h: seq<Byte>)
    requires |crc| == 4
    ensures |h| == HDR_SIZE
  {
    crc + [|m.data| % 256, |m.data| / 256 % 256, |m.ctl| % 256, m.typ % 256]
  }

  function HeaderOf(h: seq<Byte>): Header
    requires |h| >= HDR_SIZE
  {
    Header(h[4] as int + 256 * h[5] as int, h[6], h[7])
  }

  predicate HeaderOk(h: Header) {
    !(h.ctlSize == 0 && h.dataSize == 0) && h.ctlSize <= CTL_MAX && h.dataSize <= DATA_MAX && h.typ < TYPES
  }

  /** The bytes socket_send queues for a message; what is in the crc field is not defined. */
  function Frame(m: Msg, crc: seq<Byte>): seq<Byte>
    requires |crc| == 4
  {
    HeaderBytes(m, crc) + m.ctl + m.data
  }

  ghost predicate Crcs(crcs: seq<seq<Byte>>, n: nat) {
    |crcs| == n && forall k :: 0 <= k < n ==> |crcs[k]| == 4
  }

  function Frames(ms: seq<Msg>, crcs: seq<seq<Byte>>): seq<Byte>
    requires |crcs| == |ms| && forall k :: 0 <= k < |ms| ==> |crcs[k]| == 4
  {
    if ms == [] then [] else Frame(ms[0], crcs[0]) + Frames(ms[1..], crcs[1..])
  }

  /** How a receiver's stream ends: the other side closed, perhaps inside a message, or a header that
      does not verify. */
  datatype End = Closed | BadHeader

  datatype Parsed = Parsed(ms: seq<Msg>, end: End)

  /** The messages in a stream. */
  function Parse(input: seq<Byte>): Parsed
    decreases |input|
  {
    if |input| < HDR_SIZE then Parsed([], Closed)
    else
      var h := HeaderOf(input);
      var n := HDR_SIZE + h.ctlSize + h.dataSize;
      if !HeaderOk(h) then Parsed([], BadHeader)
      else if |input| < n then Parsed([], Closed)
      else
        var m := Msg(h.typ, input[HDR_SIZE..HDR_SIZE + h.ctlSize], input[HDR_SIZE + h.ctlSize..n]);
        var p := Parse(input[n..]);
        Parsed([m] + p.ms, p.end)
  }

  lemma HeaderRoundTrip(m: Msg, crc: seq<Byte>, rest: seq<Byte>)
    requires Proper(m) && |crc| == 4
    ensures HeaderOf(HeaderBytes(m, crc) + rest) == Header(|m.data|, |m.ctl|, m.typ)
    ensures HeaderOk(HeaderOf(HeaderBytes(m, crc) + rest))
    ensures var h := HeaderBytes(m, crc);
            h[4] as int + 256 * h[5] as int == |m.data| && h[6] == |m.ctl| && h[7] == m.typ
  {
  }

  lemma ParseFrame(m: Msg, crc: seq<Byte>, rest: seq<Byte>)
    requires Proper(m) && |crc| == 4
    ensures Parse(Frame(m, crc) + rest) == Parsed([m] + Parse(rest).ms, Parse(rest).end)
  {
    var input := Frame(m, crc) + rest;
    var tail := m.ctl + m.data + rest;
    assert input == HeaderBytes(m, crc) + tail;
    HeaderRoundTrip(m, crc, tail);
    var n := HDR_SIZE + |m.ctl| + |m.data|;
    assert input[HDR_SIZE..HDR_SIZE + |m.ctl|] == m.ctl;
    assert input[HDR_SIZE + |m.ctl|..n] == m.data;
    assert input[n..] == rest;
  }

  // ---- the wire format itself ----

  /** The wire format of one message, byte by byte: four bytes of checksum that nothing reads, the size
      of the data in two bytes with the low one first, the size of the control part, the type, and then
      the two parts. */
  predicate OnWire(f: seq<Byte>, m: Msg) {
    && |f| == 8 + |m.ctl| + |m.data|
    && f[4] == |m.data| % 256 && f[5] == |m.data| / 256 % 256
    && f[6] == |m.ctl| % 256 && f[7] == m.typ % 256
    && f[8..8 + |m.ctl|] == m.ctl && f[8 + |m.ctl|..] == m.data
  }

  /** The bytes are those of the messages, one after the other. */
  predicate Carries(s: seq<Byte>, ms: seq<Msg>)
    decreases |ms|
  {
    if ms == [] then s == []
    else
      var n := 8 + |ms[0].ctl| + |ms[0].data|;
      n <= |s| && OnWire(s[..n], ms[0]) && Carries(s[n..], ms[1..])
  }

  /** The types and sizes that a receiver accepts. */
  predicate Accepted(m: Msg) {
    && m.typ in {0, 1, 2, 3}
    && |m.ctl| <= 255 && |m.data| <= 4096 && |m.ctl| + |m.data| > 0
  }

  /** Why a receiver stops before these bytes: a header is incomplete, it is not acceptable, or what it
      announces is not all there. */
  predicate StopsAt(s: seq<Byte>, ret: int) {
    if |s| < 8 then ret == -108
    else
      var data, ctl, typ := s[4] as int + 256 * s[5] as int, s[6], s[7];
      if data + ctl == 0 || data > 4096 || typ !in {0, 1, 2, 3} then ret == -22
      else |s| < 8 + ctl + data && ret == -108
  }

  lemma {:induction false} FramesCarry(ms: seq<Msg>, crcs: seq<seq<Byte>>)
    requires Crcs(crcs, |ms|)
    ensures Carries(Frames(ms, crcs), ms)
  {
    if ms != [] {
      FramesCarry(ms[1..], crcs[1..]);
      var f, more := Frame(ms[0], crcs[0]), Frames(ms[1..], crcs[1..]);
      FrameOnWire(ms[0], crcs[0]);
      assert (f + more)[..|f|] == f && (f + more)[|f|..] == more;
    }
  }

  lemma FrameOnWire(m: Msg, crc: seq<Byte>)
    requires |crc| == 4
    ensures OnWire(Frame(m, crc), m)
  {
    var f := Frame(m, crc);
    assert f[8..8 + |m.ctl|] == m.ctl && f[8 + |m.ctl|..] == m.data;
  }

  /** A front part of the bytes carries these messages. */
  ghost predicate Holds(s: seq<Byte>, ms: seq<Msg>) {
    exists n: nat :: n <= |s| && Carries(s[..n], ms)
  }

  /** So it does, and what follows it is where a receiver stops. */
  ghost predicate Ends(s: seq<Byte>, ms: seq<Msg>, ret: int) {
    exists n: nat :: n <= |s| && Carries(s[..n], ms) && StopsAt(s[n..], ret)
  }

  function Errno(end: End): int {
    if end == BadHeader then EINVAL else ESHUTDOWN
  }

  lemma EndsNow(s: seq<Byte>, ret: int)
    requires StopsAt(s, ret)
    ensures Ends(s, [], ret)
  {
    assert s[..0] == [] && s[0..] == s;
    assert Carries(s[..0], []);
  }

  lemma EndsLater(s: seq<Byte>, m: Msg, ms: seq<Msg>, ret: int)
    requires var n := 8 + |m.ctl| + |m.data|; n <= |s| && OnWire(s[..n], m) && Ends(s[n..], ms, ret)
    ensures Ends(s, [m] + ms, ret)
  {
    hide OnWire, StopsAt;
    var k := 8 + |m.ctl| + |m.data|;
    var n: nat :| n <= |s[k..]| && Carries(s[k..][..n], ms) && StopsAt(s[k..][n..], ret);
    assert s[..k + n][..k] == s[..k] && s[..k + n][k..] == s[k..][..n] && s[k + n..] == s[k..][n..];
    assert ([m] + ms)[1..] == ms;
    assert Carries(s[..k + n], [m] + ms);
  }

  lemma ReadOnWire(s: seq<Byte>)
    requires |s| >= HDR_SIZE && HeaderOk(HeaderOf(s)) && |s| >= HDR_SIZE + HeaderOf(s).ctlSize + HeaderOf(s).dataSize
    ensures var h := HeaderOf(s);
            var n := HDR_SIZE + h.ctlSize + h.dataSize;
            var m := Msg(h.typ, s[HDR_SIZE..HDR_SIZE + h.ctlSize], s[HDR_SIZE + h.ctlSize..n]);
            OnWire(s[..n], m) && Accepted(m)
  {
  }

  lemma StopsThere(s: seq<Byte>)
    requires |s| < HDR_SIZE || !HeaderOk(HeaderOf(s)) || |s| < HDR_SIZE + HeaderOf(s).ctlSize + HeaderOf(s).dataSize
    ensures StopsAt(s, if |s| < HDR_SIZE || HeaderOk(HeaderOf(s)) then ESHUTDOWN else EINVAL)
  {
  }

  /** The messages that parsing finds are acceptable, a front part of the bytes carries them, and it
      stops before the rest for the reason it gives. */
  lemma {:induction false} ParseReads(s: seq<Byte>)
    ensures forall k :: 0 <= k < |Parse(s).ms| ==> Accepted(Parse(s).ms[k])
    ensures Ends(s, Parse(s).ms, Errno(Parse(s).end))
    decreases |s|
  {
    hide Parse, Ends, StopsAt, OnWire, Accepted, HeaderOk, HeaderOf;
    ParseSteps(s);
    if |s| < HDR_SIZE || !HeaderOk(HeaderOf(s)) || |s| < HDR_SIZE + HeaderOf(s).ctlSize + HeaderOf(s).dataSize {
      StopsThere(s);
      EndsNow(s, Errno(Parse(s).end));
    } else {
      var h := HeaderOf(s);
      var k := HDR_SIZE + h.ctlSize + h.dataSize;
      ParseReads(s[k..]);
      ReadOnWire(s);
      var m := Msg(h.typ, s[HDR_SIZE..HDR_SIZE + h.ctlSize], s[HDR_SIZE + h.ctlSize..k]);
      EndsLater(s, m, Parse(s[k..]).ms, Errno(Parse(s).end));
    }
  }

  lemma {:induction false} CarriesFront(s: seq<Byte>, ms: seq<Msg>, front: seq<Msg>)
    requires Carries(s, ms) && front <= ms
    ensures Holds(s, front)
    decreases |ms|
  {
    if front == [] {
      assert Carries(s[..0], front);
    } else {
      var k := 8 + |ms[0].ctl| + |ms[0].data|;
      CarriesFront(s[k..], ms[1..], front[1..]);
      var n: nat :| n <= |s[k..]| && Carries(s[k..][..n], front[1..]);
      assert s[..k + n][..k] == s[..k] && s[..k + n][k..] == s[k..][..n];
      assert Carries(s[..k + n], front);
    }
  }

  /** Parsing gives back every message list, with whatever follows it. */
  lemma {:induction false} RoundTrip(ms: seq<Msg>, crcs: seq<seq<Byte>>, rest: seq<Byte>)
    requires Crcs(crcs, |ms|) && forall k :: 0 <= k < |ms| ==> Proper(ms[k])
    ensures Parse(Frames(ms, crcs) + rest) == Parsed(ms + Parse(rest).ms, Parse(rest).end)
  {
    hide Parse;
    if ms == [] {
      assert Frames(ms, crcs) + rest == rest;
      assert ms + Parse(rest).ms == Parse(rest).ms;
    } else {
      var more := Frames(ms[1..], crcs[1..]) + rest;
      assert Frames(ms, crcs) + rest == Frame(ms[0], crcs[0]) + more;
      RoundTrip(ms[1..], crcs[1..], rest);
      ParseFrame(ms[0], crcs[0], more);
      assert ms + Parse(rest).ms == [ms[0]] + (ms[1..] + Parse(rest).ms);
    }
  }

  // ---- sending ----

  method IovAppend(iov: array<Slice>, iovcnt: nat, base: nat, len: nat) returns (n: nat)
    requires len > 0 ==> iovcnt < iov.Length
    modifies iov
    ensures iovcnt <= n <= iov.Length || (len == 0 && n == iovcnt)
    ensures len == 0 ==> n == iovcnt && iov[..] == old(iov[..])
    ensures len > 0 ==> n == iovcnt + 1 && iov[..n] == old(iov[..iovcnt]) + [Slice(base, len)]
  {
    if len == 0 {
      return iovcnt;
    }
    iov[iovcnt] := Slice(base, len);
    n := iovcnt + 1;
  }

  lemma OneSlice(base: nat, len: nat)
    ensures var v := [Slice(base, len)];
            Total(v) == len && Separate(v) && forall j: nat :: j < len ==> Addr(v, j) == base + j
  {
    assert [Slice(base, len)][1..] == [];
  }

  lemma TwoSlices(b0: nat, l0: nat, b1: nat, l1: nat)
    requires b0 + l0 <= b1
    ensures var v := [Slice(b0, l0), Slice(b1, l1)];
            && Total(v) == l0 + l1 && Separate(v)
            && forall j: nat :: j < l0 + l1 ==> Addr(v, j) == if j < l0 then b0 + j else b1 + (j - l0)
  {
    var v := [Slice(b0, l0), Slice(b1, l1)];
    assert v[1..] == [Slice(b1, l1)];
    OneSlice(b1, l1);
  }

  /** The send thread's part: one queued buffer into the connection. */
  method SendBuffer(port: Port, bytes: seq<Byte>) returns (ret: int)
    requires port.sending && bytes != []
    modifies port
    ensures ret <= 0 && (port.Steady() ==> ret == 0)
    ensures ret == 0 ==> port.stream == old(port.stream) + bytes
    ensures old(port.stream) <= port.stream <= old(port.stream) + bytes
  {
    hide Sent, Separate, Addr, Total;
    var sbuf := new Byte[|bytes|](j requires 0 <= j < |bytes| => bytes[j]);
    var iov := new Slice[1](_ => Slice(0, 0));
    var cnt := IovAppend(iov, 0, 0, |bytes|);
    OneSlice(0, |bytes|);
    ghost var s0 := port.stream;
    assert iov[..cnt] == [Slice(0, |bytes|)];
    assert sbuf[..] == bytes;
    ret := WholeIovec(port, iov, cnt, sbuf);
    if ret < 0 {
      FrontSent(s0, port.stream, bytes);
    } else {
      AllSent(s0, port.stream, bytes);
    }
  }

  /** socket_send and the send thread: each message is copied into a buffer of its own, and the
      buffers are written in the order they were queued; after a failure a front part has gone out. */
  method SendAll(port: Port, ms: seq<Msg>, crcs: seq<seq<Byte>>) returns (ret: int)
    requires port.sending && Crcs(crcs, |ms|)
    modifies port
    ensures ret <= 0 && (port.Steady() ==> ret == 0)
    ensures ret == 0 ==> port.stream == old(port.stream) + Frames(ms, crcs)
    ensures ret == 0 ==> old(port.stream) <= port.stream && Carries(port.stream[|old(port.stream)|..], ms)
    ensures old(port.stream) <= port.stream <= old(port.stream) + Frames(ms, crcs)
  {
    hide Frame, Carries;
    var i := 0;
    ghost var s0 := port.stream;
    FramesCarry(ms, crcs);
    assert (s0 + Frames(ms, crcs))[|s0|..] == Frames(ms, crcs);
    assert ms[0..] == ms && crcs[0..] == crcs;
    while i < |ms|
      invariant 0 <= i <= |ms|
      invariant s0 <= port.stream && port.stream + Frames(ms[i..], crcs[i..]) == s0 + Frames(ms, crcs)
    {
      var bytes := Frame(ms[i], crcs[i]);
      FrameLength(ms[i], crcs[i]);
      assert ms[i..][1..] == ms[i + 1..] && crcs[i..][1..] == crcs[i + 1..];
      ghost var more := Frames(ms[i + 1..], crcs[i + 1..]);
      assert port.stream + Frames(ms[i..], crcs[i..]) == (port.stream + bytes) + more;
      ret := SendBuffer(port, bytes);
      if ret < 0 {
        return;
      }
      i := i + 1;
    }
    ret := 0;
  }

  lemma FrameLength(m: Msg, crc: seq<Byte>)
    requires |crc| == 4
    ensures |Frame(m, crc)| == HDR_SIZE + |m.ctl| + |m.data|
  {
  }

  lemma AllSent(before: seq<Byte>, after: seq<Byte>, bytes: seq<Byte>)
    requires Total([Slice(0, |bytes|)]) == |bytes| && Fits([Slice(0, |bytes|)], |bytes|)
    requires Sent(before, after, [Slice(0, |bytes|)], bytes, |bytes|)
    ensures after == before + bytes
  {
    OneSlice(0, |bytes|);
    forall k | 0 <= k < |after|
      ensures after[k] == (before + bytes)[k]
    {
      if k >= |before| {
        var j := k - |before|;
        assert after[|before| + j] == bytes[Addr([Slice(0, |bytes|)], j)];
      }
    }
  }

  lemma FrontSent(before: seq<Byte>, after: seq<Byte>, bytes: seq<Byte>)
    requires Total([Slice(0, |bytes|)]) == |bytes| && Fits([Slice(0, |bytes|)], |bytes|)
    requires exists n: nat :: n < |bytes| && Sent(before, after, [Slice(0, |bytes|)], bytes, n)
    ensures before <= after <= before + bytes
  {
    OneSlice(0, |bytes|);
    var n: nat :| n < |bytes| && Sent(before, after, [Slice(0, |bytes|)], bytes, n);
    forall k | 0 <= k < |after|
      ensures after[k] == (before + bytes)[k]
    {
      if k >= |before| {
        var j := k - |before|;
        assert after[|before| + j] == bytes[Addr([Slice(0, |bytes|)], j)];
      }
    }
  }

  // ---- receiving ----

  const CTL_PAGE: nat := HDR_SIZE
  const DATA_PAGE: nat := HDR_SIZE + PAGE_SIZE

  lemma OneReceived(before: seq<Byte>, after: seq<Byte>, base: nat, len: nat, mem0: seq<Byte>, mem: seq<Byte>)
    requires base + len <= |mem| && Total([Slice(base, len)]) == len
    requires Received(before, after, [Slice(base, len)], mem0, mem, len)
    ensures len <= |before| && mem[base..base + len] == before[..len] && after == before[len..]
  {
    OneSlice(base, len);
    var v := [Slice(base, len)];
    forall j | 0 <= j < len
      ensures mem[base..base + len][j] == before[..len][j]
    {
      assert mem[Addr(v, j)] == before[j];
    }
  }

  lemma TwoReceived(before: seq<Byte>, after: seq<Byte>, b0: nat, l0: nat, b1: nat, l1: nat, mem0: seq<Byte>, mem: seq<Byte>)
    requires b0 + l0 <= b1 && b1 + l1 <= |mem|
    requires var v := [Slice(b0, l0), Slice(b1, l1)];
             Total(v) == l0 + l1 && Received(before, after, v, mem0, mem, l0 + l1)
    ensures l0 + l1 <= |before| && after == before[l0 + l1..]
    ensures mem[b0..b0 + l0] == before[..l0] && mem[b1..b1 + l1] == before[l0..l0 + l1]
  {
    TwoSlices(b0, l0, b1, l1);
    var v := [Slice(b0, l0), Slice(b1, l1)];
    forall j | 0 <= j < l0
      ensures mem[b0..b0 + l0][j] == before[..l0][j]
    {
      assert mem[Addr(v, j)] == before[j];
    }
    var got, want := mem[b1..b1 + l1], before[l0..l0 + l1];
    forall j | 0 <= j < l1
      ensures got[j] == want[j]
    {
      assert mem[Addr(v, l0 + j)] == before[l0 + j];
    }
  }

  /** The header into its own bytes. */
  method ReadHeader(port: Port, mem: array<Byte>) returns (ret: int, h: Header)
    requires !port.sending && mem.Length >= HDR_SIZE
    modifies port, mem
    ensures ret <= 0
    ensures ret == 0 ==> |old(port.stream)| >= HDR_SIZE && port.stream == old(port.stream)[HDR_SIZE..]
                         && h == HeaderOf(old(port.stream))
    ensures port.Steady() ==> ret == if |old(port.stream)| >= HDR_SIZE then 0 else ESHUTDOWN
  {
    hide Received, Separate, Addr, Total;
    var iov := new Slice[3](_ => Slice(0, 0));
    var cnt := IovAppend(iov, 0, 0, HDR_SIZE);
    OneSlice(0, HDR_SIZE);
    ghost var s0, mem0 := port.stream, mem[..];
    assert iov[..cnt] == [Slice(0, HDR_SIZE)];
    ret := WholeIovec(port, iov, cnt, mem);
    h := Header(0, 0, 0);
    if ret == 0 {
      OneReceived(s0, port.stream, 0, HDR_SIZE, mem0, mem[..]);
      h := HeaderOf(mem[..HDR_SIZE]);
      assert mem[..HDR_SIZE] == s0[..HDR_SIZE] by { assert mem[..][0..HDR_SIZE] == mem[..HDR_SIZE]; }
    }
  }

  /** The vector of a message's payload: empty parts do not enter it. */
  function Payload(h: Header): seq<Slice> {
    (if h.ctlSize > 0 then [Slice(CTL_PAGE, h.ctlSize)] else [])
    + (if h.dataSize > 0 then [Slice(DATA_PAGE, h.dataSize)] else [])
  }

  lemma PayloadIs(h: Header)
    requires HeaderOk(h)
    ensures Payload(h) == if h.dataSize == 0 then [Slice(CTL_PAGE, h.ctlSize)]
                          else if h.ctlSize == 0 then [Slice(DATA_PAGE, h.dataSize)]
                          else [Slice(CTL_PAGE, h.ctlSize), Slice(DATA_PAGE, h.dataSize)]
  {
  }

  lemma PayloadFits(h: Header)
    requires HeaderOk(h)
    ensures Total(Payload(h)) == h.ctlSize + h.dataSize && Separate(Payload(h))
    ensures Fits(Payload(h), DATA_PAGE + PAGE_SIZE)
    ensures forall i :: 0 <= i < |Payload(h)| ==> Payload(h)[i].len > 0
  {
    hide Separate, Total, Addr, Payload;
    PayloadIs(h);
    OneSlice(CTL_PAGE, h.ctlSize);
    OneSlice(DATA_PAGE, h.dataSize);
    TwoSlices(CTL_PAGE, h.ctlSize, DATA_PAGE, h.dataSize);
  }

  lemma PayloadReceived(h: Header, before: seq<Byte>, after: seq<Byte>, mem0: seq<Byte>, mem: seq<Byte>)
    requires HeaderOk(h) && |mem| == DATA_PAGE + PAGE_SIZE && Total(Payload(h)) == h.ctlSize + h.dataSize
    requires Received(before, after, Payload(h), mem0, mem, h.ctlSize + h.dataSize)
    ensures var n := h.ctlSize + h.dataSize;
            && n <= |before| && after == before[n..]
            && mem[CTL_PAGE..CTL_PAGE + h.ctlSize] == before[..h.ctlSize]
            && mem[DATA_PAGE..DATA_PAGE + h.dataSize] == before[h.ctlSize..n]
  {
    hide Received, Separate, Total, Addr, Payload;
    PayloadIs(h);
    if h.dataSize == 0 {
      OneReceived(before, after, CTL_PAGE, h.ctlSize, mem0, mem);
    } else if h.ctlSize == 0 {
      OneReceived(before, after, DATA_PAGE, h.dataSize, mem0, mem);
    } else {
      TwoReceived(before, after, CTL_PAGE, h.ctlSize, DATA_PAGE, h.dataSize, mem0, mem);
    }
  }

  /** The payload into the control page, reused for every message, and a data page. */
  method ReadPayload(port: Port, mem: array<Byte>, h: Header) returns (ret: int, m: Msg)
    requires !port.sending && mem.Length == DATA_PAGE + PAGE_SIZE && HeaderOk(h)
    modifies port, mem
    ensures ret <= 0
    ensures var n := h.ctlSize + h.dataSize;
            && (ret == 0 ==>
                  n <= |old(port.stream)| && port.stream == old(port.stream)[n..]
                  && m == Msg(h.typ, old(port.stream)[..h.ctlSize], old(port.stream)[h.ctlSize..n]))
            && (port.Steady() ==> ret == if |old(port.stream)| >= n then 0 else ESHUTDOWN)
  {
    hide Received, Separate, Addr, Total;
    var iov := new Slice[3](_ => Slice(0, 0));
    var cnt := IovAppend(iov, 0, CTL_PAGE, h.ctlSize);
    cnt := IovAppend(iov, cnt, DATA_PAGE, h.dataSize);
    assert iov[..cnt] == Payload(h);
    ghost var s0, mem0 := port.stream, mem[..];
    PayloadFits(h);
    assert forall i :: 0 <= i < cnt ==> iov[i] == Payload(h)[i];
    ret := WholeIovec(port, iov, cnt, mem);
    m := Msg(0, [], []);
    if ret == 0 {
      PayloadReceived(h, s0, port.stream, mem0, mem[..]);
      m := Msg(h.typ, mem[CTL_PAGE..CTL_PAGE + h.ctlSize], mem[DATA_PAGE..DATA_PAGE + h.dataSize]);
    }
  }

  /** Any front part of what parsing finds is carried by a front part of the bytes. */
  lemma DeliversCarried(s: seq<Byte>)
    ensures forall front: seq<Msg> :: front <= Parse(s).ms ==> Holds(s, front)
  {
    hide Parse, Carries, StopsAt;
    ParseReads(s);
    var n: nat :| n <= |s| && Carries(s[..n], Parse(s).ms) && StopsAt(s[n..], Errno(Parse(s).end));
    forall front: seq<Msg> | front <= Parse(s).ms
      ensures Holds(s, front)
    {
      CarriesFront(s[..n], Parse(s).ms, front);
      var i: nat :| i <= n && Carries(s[..n][..i], front);
      assert s[..n][..i] == s[..i];
    }
  }

  /** The receive thread: header, check, payload, deliver, until the stream ends or is bad. */
  method ReceiveAll(port: Port) returns (delivered: seq<Msg>, ret: int)
    requires !port.sending
    modifies port
    ensures ret < 0 && delivered <= Parse(old(port.stream)).ms
    ensures port.Steady() ==>
      && delivered == Parse(old(port.stream)).ms
      && ret == if Parse(old(port.stream)).end == BadHeader then EINVAL else ESHUTDOWN
    ensures forall k :: 0 <= k < |delivered| ==> Accepted(delivered[k])
    ensures Holds(old(port.stream), delivered)
    ensures port.Steady() ==> Ends(old(port.stream), delivered, ret)
  {
    hide Parse, HeaderOf, Holds, Ends, Accepted;
    ParseReads(port.stream);
    DeliversCarried(port.stream);
    var mem := new Byte[DATA_PAGE + PAGE_SIZE](_ => 0);
    ghost var input := port.stream;
    delivered := [];
    while true
      invariant fresh(mem) && mem.Length == DATA_PAGE + PAGE_SIZE
      invariant Parse(input).ms == delivered + Parse(port.stream).ms
      invariant Parse(input).end == Parse(port.stream).end
      decreases |port.stream|
    {
      ghost var s0 := port.stream;
      var h, m;
      ParseSteps(s0);
      ret, h := ReadHeader(port, mem);
      if ret < 0 {
        return;
      }
      if !HeaderOk(h) {
        return delivered, EINVAL;
      }
      ghost var s1 := port.stream;
      ret, m := ReadPayload(port, mem, h);
      if ret < 0 {
        return;
      }
      delivered := delivered + [m];
      SkipTwice(s0, HDR_SIZE, h.ctlSize, h.dataSize);
    }
  }

  /** What parsing does, branch by branch. */
  lemma ParseSteps(s: seq<Byte>)
    ensures |s| < HDR_SIZE ==> Parse(s) == Parsed([], Closed)
    ensures |s| >= HDR_SIZE && !HeaderOk(HeaderOf(s)) ==> Parse(s) == Parsed([], BadHeader)
    ensures |s| >= HDR_SIZE && HeaderOk(HeaderOf(s)) ==>
              var h := HeaderOf(s);
              var n := HDR_SIZE + h.ctlSize + h.dataSize;
              if |s| < n then Parse(s) == Parsed([], Closed)
              else Parse(s) == Parsed([Msg(h.typ, s[HDR_SIZE..HDR_SIZE + h.ctlSize], s[HDR_SIZE + h.ctlSize..n])]
                                      + Parse(s[n..]).ms, Parse(s[n..]).end)
  {
  }

  lemma SkipTwice(s: seq<Byte>, a: nat, b: nat, c: nat)
    requires a + b + c <= |s|
    ensures s[a..][..b] == s[a..a + b] && s[a..][b..b + c] == s[a + b..a + b + c]
    ensures s[a..][b + c..] == s[a + b + c..]
  {
  }

  /** Whatever was sent arrives, message for message, however both sides' transfers were cut up. */
  method Transmit(ms: seq<Msg>, crcs: seq<seq<Byte>>, sendPlan: nat -> int, recvPlan: nat -> int)
    returns (got: seq<Msg>)
    requires Crcs(crcs, |ms|) && forall k :: 0 <= k < |ms| ==> Proper(ms[k])
    requires forall n: nat :: sendPlan(n) >= 0 && recvPlan(n) >= 0
    ensures got == ms
  {
    hide Parse, Frames;
    var sender := new Port(true, sendPlan, []);
    var ret := SendAll(sender, ms, crcs);
    var receiver := new Port(false, recvPlan, sender.stream);
    RoundTrip(ms, crcs, []);
    assert Frames(ms, crcs) + [] == Frames(ms, crcs) && [] + Frames(ms, crcs) == Frames(ms, crcs);
    assert Parse([]) == Parsed([], Closed) by { ParseSteps([]); }
    got, ret := ReceiveAll(receiver);
  }
}
