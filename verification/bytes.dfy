/** Byte-range edits of the image, and what they mean for item offsets. */
module ByteEdits {
  import opened Keys
  import opened Layout
  import opened Edits

  /** `b` with `bs` written at `pos`. */
  function Splice(b: Image, pos: int, bs: seq<Byte>): (r: Image)
    requires 0 <= pos && pos + |bs| <= |b|
    ensures |r| == |b|
    ensures forall k :: 0 <= k < |b| ==>
              r[k] == if pos <= k < pos + |bs| then bs[k - pos] else b[k]
  {
    b[..pos] + bs + b[pos + |bs|..]
  }

  function OffBytes(off: int): (bs: seq<Byte>)
    requires 0 <= off < 65536
    ensures |bs| == 2 && Le16(bs[0], bs[1]) == off
  {
    [off % 256, off / 256]
  }

  /** The image after set_item_off(pos, off). */
  function WithOff(b: Image, pos: int, off: int): (r: Image)
    requires |b| == BLOCK_SIZE && 0 <= pos < SLOTS && 0 <= off < 65536
    ensures |r| == BLOCK_SIZE
  {
    Splice(b, SlotPos(pos), OffBytes(off))
  }

  lemma WithOffAt(b: Image, pos: int, off: int, i: int)
    requires |b| == BLOCK_SIZE && 0 <= pos < SLOTS && 0 <= off < 65536 && 0 <= i < SLOTS
    ensures Off(WithOff(b, pos, off), i) == if i == pos then off else Off(b, i)
  {
  }

  lemma WithOffSame(b: Image, pos: int, off: int, lo: int)
    requires |b| == BLOCK_SIZE && 0 <= pos < SLOTS && 0 <= off < 65536
    requires SlotPos(pos + 1) <= lo
    ensures SameFrom(b, WithOff(b, pos, off), lo)
  {
  }

  /** The image after moving n offsets from slot `src` to slot `dst` with memmove. */
  function MovedOffs(b: Image, dst: int, src: int, n: int): (r: Image)
    requires |b| == BLOCK_SIZE && 0 <= n && 0 <= dst && 0 <= src
    requires dst + n <= SLOTS && src + n <= SLOTS
    ensures |r| == BLOCK_SIZE
  {
    Splice(b, SlotPos(dst),
           b[SlotPos(src)..SlotPos(src + n)])
  }

  lemma MovedOffsAt(b: Image, dst: int, src: int, n: int, i: int)
    requires |b| == BLOCK_SIZE && 0 <= n && 0 <= dst && 0 <= src
    requires dst + n <= SLOTS && src + n <= SLOTS && 0 <= i < SLOTS
    ensures Off(MovedOffs(b, dst, src, n), i) ==
            if dst <= i < dst + n then Off(b, i - dst + src) else Off(b, i)
  {
    var r := MovedOffs(b, dst, src, n);
    var k := SlotPos(i);
    if dst <= i < dst + n {
      var s := b[SlotPos(src)..SlotPos(src + n)];
      assert r[k] == s[2 * (i - dst)] == b[SlotPos(i - dst + src)];
      assert r[k + 1] == s[2 * (i - dst) + 1];
    }
  }

  lemma MovedOffsSame(b: Image, dst: int, src: int, n: int, lo: int)
    requires |b| == BLOCK_SIZE && 0 <= n && 0 <= dst && 0 <= src
    requires dst + n <= SLOTS && src + n <= SLOTS
    requires SlotPos(dst + n) <= lo
    ensures SameFrom(b, MovedOffs(b, dst, src, n), lo)
  {
  }

  /** Writing a payload changes no item offset below it and nothing from its end on. */
  lemma PayloadWriteAt(b: Image, off: int, bs: seq<Byte>, i: int)
    requires |b| == BLOCK_SIZE && 0 <= i < SLOTS
    requires SlotPos(i + 1) <= off && off + |bs| <= BLOCK_SIZE
    ensures Off(Splice(b, off, bs), i) == Off(b, i)
  {
  }

  lemma PayloadWriteSame(b: Image, off: int, bs: seq<Byte>, lo: int)
    requires |b| == BLOCK_SIZE && 0 <= off && off + |bs| <= BLOCK_SIZE && off + |bs| <= lo
    ensures SameFrom(b, Splice(b, off, bs), lo)
    ensures Splice(b, off, bs)[off..off + |bs|] == bs
  {
  }

  lemma SameFromTransitive(a: Image, b: Image, c: Image, lo: int)
    requires SameFrom(a, b, lo) && SameFrom(b, c, lo)
    ensures SameFrom(a, c, lo)
  {
  }
}
