/** The packed block as a value: a 4096-byte image with two-byte item offsets growing up
    after the header and item payloads growing down from the end of the block
    (shared/format-block.h:34-60, shared/btree.c:46-143). */
module Layout {
  import opened Keys

  const BLOCK_SIZE: int := 4096
  const HEADER_SIZE: int := 16
  const OFF_SIZE: int := 2
  const ITEM_HEADER: int := 3
  const MAX_FREE: int := BLOCK_SIZE - HEADER_SIZE
  const KEY_MAX: int := 255
  const VAL_MAX: int := 512
  const MAX_ITEMS: int := MAX_FREE / (OFF_SIZE + ITEM_HEADER + 1 + 0)
  const MIN_USED_PCT: int := 35
  /** Slots that fit between the header and the end of the block. */
  const SLOTS: int := 2040

  /** offsetof(item_off[i]). */
  function SlotPos(i: int): int
  {
    HEADER_SIZE + 2 * i
  }

  datatype Item = Item(key: Key, val: seq<Byte>)

  type Image = seq<Byte>

  /** item_size: the payload without its item_off element. */
  function Size(it: Item): int
  {
    ITEM_HEADER + |it.key| + |it.val|
  }

  /** total_item_size: the payload and its item_off element. */
  function TotalSize(it: Item): int
  {
    OFF_SIZE + Size(it)
  }

  /** The header fields of an item can hold its sizes: a u8 and a le16. */
  predicate Encodable(it: Item)
  {
    |it.key| <= 255 && |it.val| < 65536
  }

  /** The sizes ngnfs_btree_insert lets in. */
  predicate Insertable(it: Item)
  {
    1 <= |it.key| <= KEY_MAX && |it.val| <= VAL_MAX
  }

  predicate AllInsertable(items: seq<Item>)
  {
    forall i :: 0 <= i < |items| ==> Insertable(items[i])
  }

  /** The payload bytes: val_size little endian, key_size, key, val. */
  function Encode(it: Item): (bs: seq<Byte>)
    requires Encodable(it)
    ensures |bs| == Size(it)
  {
    [|it.val| % 256, |it.val| / 256, |it.key|] + it.key + it.val
  }

  function Le16(lo: Byte, hi: Byte): (n: int)
    ensures 0 <= n < 65536
  {
    lo as int + 256 * (hi as int)
  }

  function KeySizeAt(buf: Image, off: int): Byte
    requires 0 <= off && off + ITEM_HEADER <= |buf|
  {
    buf[off + 2]
  }

  function ValSizeAt(buf: Image, off: int): (n: int)
    requires 0 <= off && off + ITEM_HEADER <= |buf|
    ensures 0 <= n < 65536
  {
    Le16(buf[off], buf[off + 1])
  }

  function SizeAt(buf: Image, off: int): int
    requires 0 <= off && off + ITEM_HEADER <= |buf|
  {
    ITEM_HEADER + KeySizeAt(buf, off) + ValSizeAt(buf, off)
  }

  /** The item whose payload starts at `off`, if it lies inside the block. */
  predicate Readable(buf: Image, off: int)
  {
    0 <= off && off + ITEM_HEADER <= |buf| && off + SizeAt(buf, off) <= |buf|
  }

  function ParseItem(buf: Image, off: int): (it: Item)
    requires Readable(buf, off)
    ensures Size(it) == SizeAt(buf, off) && Encodable(it)
  {
    var k := off + ITEM_HEADER;
    var v := k + KeySizeAt(buf, off);
    Item(buf[k..v], buf[v..v + ValSizeAt(buf, off)])
  }

  /** The bytes at `off` are exactly the payload of `it`. */
  ghost predicate ItemIn(buf: Image, off: int, it: Item)
  {
    && Encodable(it)
    && 0 <= off && off + Size(it) <= |buf|
    && buf[off..off + Size(it)] == Encode(it)
  }

  lemma SubSlice<T>(s: seq<T>, a: int, b: int, c: int, d: int)
    requires 0 <= a <= b <= |s| && 0 <= c <= d <= b - a
    ensures s[a..b][c..d] == s[a + c..a + d]
  {
    var l, r := s[a..b][c..d], s[a + c..a + d];
    forall i | 0 <= i < d - c ensures l[i] == r[i] {
      assert l[i] == s[a..b][c + i] == s[a + c + i];
    }
    assert l == r;
  }

  lemma EncodeParts(it: Item)
    requires Encodable(it)
    ensures var e := Encode(it);
            Le16(e[0], e[1]) == |it.val| && e[2] == |it.key| &&
            e[3..3 + |it.key|] == it.key && e[3 + |it.key|..Size(it)] == it.val
  {
    var h := [|it.val| % 256, |it.val| / 256, |it.key|];
    assert Encode(it) == h + it.key + it.val;
  }

  lemma ItemInParses(buf: Image, off: int, it: Item)
    requires ItemIn(buf, off, it)
    ensures SizeAt(buf, off) == Size(it) && KeySizeAt(buf, off) == |it.key|
    ensures Readable(buf, off) && ParseItem(buf, off) == it
  {
    var s := buf[off..off + Size(it)];
    assert s[0] == buf[off] && s[1] == buf[off + 1] && s[2] == buf[off + 2];
    EncodeParts(it);
    SubSlice(buf, off, off + Size(it), 3, 3 + |it.key|);
    SubSlice(buf, off, off + Size(it), 3 + |it.key|, Size(it));
  }

  lemma ParsedIsIn(buf: Image, off: int)
    requires Readable(buf, off)
    ensures ItemIn(buf, off, ParseItem(buf, off))
  {
    var it := ParseItem(buf, off);
    var s, e := buf[off..off + Size(it)], Encode(it);
    SubSlice(buf, off, off + Size(it), 3, 3 + |it.key|);
    SubSlice(buf, off, off + Size(it), 3 + |it.key|, Size(it));
    EncodeParts(it);
    assert s == s[..3] + s[3..3 + |it.key|] + s[3 + |it.key|..Size(it)];
    assert e == e[..3] + e[3..3 + |it.key|] + e[3 + |it.key|..Size(it)];
    assert s[..3] == e[..3];
  }

  /** Parsing undoes encoding, and an item is in the image iff parsing finds it there. */
  lemma ParseIffItemIn(buf: Image, off: int, it: Item)
    ensures ItemIn(buf, off, it) <==> Readable(buf, off) && ParseItem(buf, off) == it
  {
    if ItemIn(buf, off, it) {
      ItemInParses(buf, off, it);
    }
    if Readable(buf, off) {
      ParsedIsIn(buf, off);
    }
  }

  /** The payload byte by byte: the size of the value in two bytes, the low one first, the size of the key
      in one, the key, the value. */
  predicate PayloadBytes(buf: Image, off: int, it: Item)
  {
    var k, v := |it.key|, |it.val|;
    && 0 <= off && off + 3 + k + v <= |buf| && k < 256 && v < 65536
    && buf[off] as int + 256 * buf[off + 1] as int == v && buf[off + 2] == k
    && buf[off + 3..off + 3 + k] == it.key && buf[off + 3 + k..off + 3 + k + v] == it.val
  }

  lemma ItemInIsPayload(buf: Image, off: int, it: Item)
    ensures ItemIn(buf, off, it) <==> PayloadBytes(buf, off, it)
  {
    ParseIffItemIn(buf, off, it);
  }

  /** get_item_off: the little-endian element `i` of the item_off array. */
  function Off(buf: Image, i: int): (o: int)
    requires |buf| == BLOCK_SIZE && 0 <= i < SLOTS
    ensures 0 <= o < 65536
  {
    Le16(buf[SlotPos(i)], buf[SlotPos(i) + 1])
  }

  function Offs(buf: Image, nr: int): (s: seq<int>)
    requires |buf| == BLOCK_SIZE && 0 <= nr <= SLOTS
    ensures |s| == nr
    ensures forall i :: 0 <= i < nr ==> s[i] == Off(buf, i)
  {
    seq(nr, i requires 0 <= i < nr => Off(buf, i))
  }

  function SumSizes(items: seq<Item>): (n: int)
    ensures n >= ITEM_HEADER * |items|
  {
    if items == [] then 0 else Size(items[0]) + SumSizes(items[1..])
  }

  lemma {:induction false} SumConcat(a: seq<Item>, b: seq<Item>)
    ensures SumSizes(a + b) == SumSizes(a) + SumSizes(b)
  {
    if a == [] {
      assert a + b == b;
    } else {
      assert (a + b)[1..] == a[1..] + b;
      SumConcat(a[1..], b);
    }
  }

  lemma SumSplit(items: seq<Item>, i: int)
    requires 0 <= i < |items|
    ensures SumSizes(items) == SumSizes(items[..i]) + Size(items[i]) + SumSizes(items[i + 1..])
    ensures SumSizes(items[..i + 1]) == SumSizes(items[..i]) + Size(items[i])
  {
    assert items == items[..i] + items[i..];
    SumConcat(items[..i], items[i..]);
    assert items[..i + 1] == items[..i] + [items[i]];
    SumConcat(items[..i], [items[i]]);
  }

  /** used_size of a block that holds `items`. */
  function Used(items: seq<Item>): (n: int)
    ensures n >= 0
  {
    2 * |items| + SumSizes(items)
  }

  lemma UsedConcat(a: seq<Item>, b: seq<Item>)
    ensures Used(a + b) == Used(a) + Used(b)
  {
    SumConcat(a, b);
  }

  /** avail_free_end: the first byte after the free gap, unwrapped. */
  function End(nr: int, avail: int): int
  {
    SlotPos(nr) + avail
  }

  ghost predicate Apart(o1: int, s1: int, o2: int, s2: int)
  {
    o1 + s1 <= o2 || o2 + s2 <= o1
  }

  ghost predicate Placed(buf: Image, end: int, offs: seq<int>, items: seq<Item>)
    requires |offs| == |items|
  {
    && (forall i :: 0 <= i < |items| ==> end <= offs[i] && ItemIn(buf, offs[i], items[i]))
    && (forall i, j :: 0 <= i < j < |items| ==>
          Apart(offs[i], Size(items[i]), offs[j], Size(items[j])))
  }

  /** The layout invariant: the offset array, the free gap and all payloads are disjoint
      regions of the block, and total_free counts every byte that no item uses. */
  ghost predicate Laid(nr: int, total: int, avail: int, buf: Image, items: seq<Item>)
  {
    && |buf| == BLOCK_SIZE
    && 0 <= nr == |items|
    && 0 <= avail
    && End(nr, avail) <= BLOCK_SIZE
    && Placed(buf, End(nr, avail), Offs(buf, nr), items)
    && total == MAX_FREE - Used(items)
  }

  lemma LaidBounds(nr: int, total: int, avail: int, buf: Image, items: seq<Item>)
    requires Laid(nr, total, avail, buf, items)
    ensures |buf| == BLOCK_SIZE && 0 <= nr == |items| <= SLOTS
    ensures 0 <= avail && End(nr, avail) <= BLOCK_SIZE
    ensures total == MAX_FREE - Used(items)
  {
  }

  lemma LaidItem(nr: int, total: int, avail: int, buf: Image, items: seq<Item>, i: int)
    requires Laid(nr, total, avail, buf, items) && 0 <= i < nr
    ensures nr <= SLOTS
    ensures End(nr, avail) <= Off(buf, i) && ItemIn(buf, Off(buf, i), items[i])
    ensures Off(buf, i) + Size(items[i]) <= BLOCK_SIZE
  {
    assert Offs(buf, nr)[i] == Off(buf, i);
  }

  lemma LaidApart(nr: int, total: int, avail: int, buf: Image, items: seq<Item>, i: int, j: int)
    requires Laid(nr, total, avail, buf, items) && 0 <= i < j < nr
    ensures Apart(Off(buf, i), Size(items[i]), Off(buf, j), Size(items[j]))
  {
    hide ItemIn;
    var o := Offs(buf, nr);
    assert Apart(o[i], Size(items[i]), o[j], Size(items[j]));
  }

  /** Keys strictly increase along the item_off array. */
  ghost predicate Ordered(items: seq<Item>)
  {
    forall i, j :: 0 <= i < j < |items| ==> KeyLess(items[i].key, items[j].key)
  }

  // ---- counting bytes: the sum of disjoint payload sizes is the size of their union ----

  predicate Within(a: int, x: int, b: int)
  {
    a <= x < b
  }

  function Range(a: int, b: int): (s: set<int>)
    ensures forall x :: x in s <==> a <= x < b
  {
    set x | a <= x < b && Within(a, x, b)
  }

  lemma {:induction false} RangeCard(a: int, b: int)
    requires a <= b
    ensures |Range(a, b)| == b - a
    decreases b - a
  {
    if a < b {
      RangeCard(a, b - 1);
      assert Range(a, b) == Range(a, b - 1) + {b - 1};
    } else {
      assert Range(a, b) == {};
    }
  }

  /** Every byte that belongs to one of the payloads. */
  function Covered(offs: seq<int>, items: seq<Item>): set<int>
    requires |offs| == |items|
  {
    if items == [] then {}
    else Range(offs[0], offs[0] + Size(items[0])) + Covered(offs[1..], items[1..])
  }

  lemma {:induction false} CoveredMeaning(offs: seq<int>, items: seq<Item>, x: int)
    requires |offs| == |items|
    ensures x in Covered(offs, items) <==>
            exists i :: 0 <= i < |items| && offs[i] <= x < offs[i] + Size(items[i])
  {
    if items != [] {
      CoveredMeaning(offs[1..], items[1..], x);
      var o, s := offs[1..], items[1..];
      if x in Covered(o, s) {
        var i :| 0 <= i < |s| && o[i] <= x < o[i] + Size(s[i]);
        assert offs[i + 1] <= x < offs[i + 1] + Size(items[i + 1]);
      }
      if i :| 0 <= i < |items| && offs[i] <= x < offs[i] + Size(items[i]) {
        if i > 0 {
          assert o[i - 1] <= x < o[i - 1] + Size(s[i - 1]);
        }
      }
    }
  }

  lemma {:induction false} CoveredCard(buf: Image, end: int, offs: seq<int>, items: seq<Item>)
    requires |offs| == |items| && Placed(buf, end, offs, items)
    ensures |Covered(offs, items)| == SumSizes(items)
    ensures Covered(offs, items) <= Range(end, |buf|)
  {
    if items != [] {
      var o, s := offs[1..], items[1..];
      assert Placed(buf, end, o, s);
      CoveredCard(buf, end, o, s);
      RangeCard(offs[0], offs[0] + Size(items[0]));
      assert ItemIn(buf, offs[0], items[0]);
      forall x | x in Covered(o, s)
        ensures x !in Range(offs[0], offs[0] + Size(items[0]))
      {
        CoveredMeaning(o, s, x);
        var i :| 0 <= i < |s| && o[i] <= x < o[i] + Size(s[i]);
        assert Apart(offs[0], Size(items[0]), offs[i + 1], Size(items[i + 1]));
      }
      assert Range(offs[0], offs[0] + Size(items[0])) !! Covered(o, s);
    }
  }

  /** A free byte between the gap and the end of the block that avail_free does not count. */
  ghost predicate Hole(nr: int, avail: int, buf: Image, items: seq<Item>, x: int)
    requires |buf| == BLOCK_SIZE && 0 <= nr == |items| <= SLOTS
  {
    End(nr, avail) <= x < BLOCK_SIZE && x !in Covered(Offs(buf, nr), items)
  }

  /** total_free is avail_free plus the number of stray free bytes, so it never underflows. */
  lemma TotalCountsHoles(nr: int, total: int, avail: int, buf: Image, items: seq<Item>)
    requires Laid(nr, total, avail, buf, items)
    ensures total - avail == |Range(End(nr, avail), BLOCK_SIZE) - Covered(Offs(buf, nr), items)|
    ensures 0 <= avail <= total <= MAX_FREE
  {
    var c := Covered(Offs(buf, nr), items);
    var r := Range(End(nr, avail), BLOCK_SIZE);
    CoveredCard(buf, End(nr, avail), Offs(buf, nr), items);
    RangeCard(End(nr, avail), BLOCK_SIZE);
    assert c <= r;
    assert r == (r - c) + c;
    assert |r| == |r - c| + |c|;
  }

  /** compact's early return: equal counters hold exactly when there is no hole to squeeze out. */
  lemma EqualCountersIffNoHoles(nr: int, total: int, avail: int, buf: Image, items: seq<Item>)
    requires Laid(nr, total, avail, buf, items)
    ensures avail == total <==> forall x :: !Hole(nr, avail, buf, items, x)
  {
    TotalCountsHoles(nr, total, avail, buf, items);
    var h := Range(End(nr, avail), BLOCK_SIZE) - Covered(Offs(buf, nr), items);
    if avail == total {
      assert h == {};
      forall x ensures !Hole(nr, avail, buf, items, x) {
        assert x !in h;
      }
    } else {
      assert h != {};
      var x :| x in h;
      assert Hole(nr, avail, buf, items, x);
    }
  }

  /** A block on its bytes: the two bytes at 16 + 2i say where the payload of item i starts, it stands there,
      no two payloads overlap, none starts before the gap ends, and each item costs five bytes besides its
      key and its value. */
  lemma LaidBytes(nr: int, total: int, avail: int, b: Image, items: seq<Item>, i: int)
    requires Laid(nr, total, avail, b, items) && |b| == 4096 && 0 <= i < nr
    ensures |items| == nr && 18 + 2 * i <= 4096
    ensures var off := b[16 + 2 * i] as int + 256 * b[17 + 2 * i] as int;
            && 16 + 2 * nr + avail <= off && PayloadBytes(b, off, items[i])
            && forall j :: 0 <= j < nr && j != i ==>
                 var other := b[16 + 2 * j] as int + 256 * b[17 + 2 * j] as int;
                 off + 3 + |items[i].key| + |items[i].val| <= other || other + 3 + |items[j].key| + |items[j].val| <= off
    ensures total == 4080 - Cost(items)
  {
    LaidBounds(nr, total, avail, b, items);
    LaidItem(nr, total, avail, b, items, i);
    ItemInIsPayload(b, Off(b, i), items[i]);
    CostIs(items);
    hide Laid, SumSizes, Cost, PayloadBytes, ItemIn;
    forall j | 0 <= j < nr && j != i
      ensures Apart(Off(b, i), Size(items[i]), Off(b, j), Size(items[j]))
    {
      LaidApart(nr, total, avail, b, items, if i < j then i else j, if i < j then j else i);
    }
  }

  function Cost(items: seq<Item>): int
  {
    if items == [] then 0 else 5 + |items[0].key| + |items[0].val| + Cost(items[1..])
  }

  lemma {:induction false} CostIs(items: seq<Item>)
    ensures Cost(items) == SumSizes(items) + 2 * |items|
  {
    if items != [] {
      CostIs(items[1..]);
    }
  }

  /** NGNFS_BTREE_MAX_ITEMS follows from the byte budget once every key has a byte. */
  lemma ItemCountBound(nr: int, total: int, avail: int, buf: Image, items: seq<Item>)
    requires Laid(nr, total, avail, buf, items) && AllInsertable(items)
    ensures nr <= MAX_ITEMS
  {
    TotalCountsHoles(nr, total, avail, buf, items);
    SumAtLeast(items);
    CountArithmetic(|items|, SumSizes(items));
  }

  lemma CountArithmetic(n: int, sum: int)
    requires n >= 0 && sum >= (ITEM_HEADER + 1) * n
    requires 2 * n + sum <= MAX_FREE
    ensures n <= MAX_ITEMS
  {
    assert MAX_ITEMS == 680;
  }

  lemma {:induction false} SumAtLeast(items: seq<Item>)
    requires AllInsertable(items)
    ensures SumSizes(items) >= (ITEM_HEADER + 1) * |items|
  {
    if items != [] {
      SumAtLeast(items[1..]);
    }
  }
}
