/** Verifying a block read from elsewhere (shared/btree.c:576-637). */
module Verifying {
  import opened Keys
  import opened Layout
  import opened Edits
  import opened Sorting
  import opened BtreeBlock
  import opened Compacting

  /** avail_free_end as the code computes it, in a u16. */
  function EndU16(nr: int, avail: int): (e: int)
    ensures 0 <= e < 65536
  {
    End(nr, avail) % 65536
  }

  /** The free gap that the wrapped end leaves after the offset array. */
  function Gap(nr: int, avail: int): (g: int)
    ensures g >= 0
  {
    if EndU16(nr, avail) < SlotPos(nr) then 0 else EndU16(nr, avail) - SlotPos(nr)
  }

  ghost predicate DistinctKeys(items: seq<Item>)
  {
    forall i, j :: 0 <= i < j < |items| ==> items[i].key != items[j].key
  }

  function BlockItems(b: Image, nr: int): (s: seq<Item>)
    requires |b| == BLOCK_SIZE && 0 <= nr <= SLOTS
    ensures |s| == nr
  {
    ItemsAt(b, Offs(b, nr))
  }

  /** What a non-empty block must satisfy: few enough items, disjoint readable payloads
      above the gap, an exact total_free, and no two equal keys.  Key order is not looked at. */
  ghost predicate Acceptable(nr: int, total: int, avail: int, b: Image)
    requires |b| == BLOCK_SIZE
  {
    && 0 < nr <= MAX_ITEMS
    && Laid(nr, total, Gap(nr, avail), b, BlockItems(b, nr))
    && DistinctKeys(BlockItems(b, nr))
  }

  /** Payloads 0..i pass the scan over ascending offsets. */
  ghost predicate Scanned(b: Image, nr: int, i: int, off: int)
    requires |b| == BLOCK_SIZE && 0 <= i <= nr <= SLOTS
  {
    && SlotPos(nr) <= off <= BLOCK_SIZE
    && (forall j :: 0 <= j < i ==> SlotPos(nr) <= Off(b, j) && Readable(b, Off(b, j)))
    && (forall j :: 0 <= j < i ==> Off(b, j) + SizeAt(b, Off(b, j)) <= off)
    && (forall j, k :: 0 <= j < k < i ==> Off(b, j) + SizeAt(b, Off(b, j)) <= Off(b, k))
    && (i == 0 ==> off == SlotPos(nr))
    && (i > 0 ==> off == Off(b, i - 1) + SizeAt(b, Off(b, i - 1)))
  }

  /** A laid out block with ascending offsets never fails the scan. */
  lemma ScanPasses(nr: int, total: int, avail: int, b: Image, its: seq<Item>, i: int, off: int)
    requires |b| == BLOCK_SIZE && 0 <= i < nr == |its| <= SLOTS
    requires Laid(nr, total, avail, b, its) && Ascending(b, nr, its)
    requires Scanned(b, nr, i, off)
    ensures off <= Off(b, i) && Readable(b, Off(b, i))
  {
    hide Laid, Off, ItemIn, SizeAt;
    LaidBounds(nr, total, avail, b, its);
    LaidItem(nr, total, avail, b, its, i);
    ItemInParses(b, Off(b, i), its[i]);
    if i > 0 {
      LaidItem(nr, total, avail, b, its, i - 1);
      ItemInParses(b, Off(b, i - 1), its[i - 1]);
    }
  }

  lemma ScanStep(b: Image, nr: int, i: int, off: int)
    requires |b| == BLOCK_SIZE && 0 <= i < nr <= SLOTS
    requires Scanned(b, nr, i, off)
    requires off <= Off(b, i) && Readable(b, Off(b, i))
    ensures Scanned(b, nr, i + 1, Off(b, i) + SizeAt(b, Off(b, i)))
    ensures SumSizes(BlockItems(b, nr)[..i + 1]) == SumSizes(BlockItems(b, nr)[..i]) + SizeAt(b, Off(b, i))
  {
    hide Off, SumSizes, ParseItem;
    SumSplit(BlockItems(b, nr), i);
  }

  /** A block that passes the whole scan is laid out, whatever gap fits below its payloads. */
  lemma ScannedLaid(nr: int, total: int, avail: int, b: Image, off: int)
    requires |b| == BLOCK_SIZE && 0 < nr <= SLOTS
    requires Scanned(b, nr, nr, off)
    requires 0 <= avail && End(nr, avail) <= Off(b, 0)
    requires total == MAX_FREE - Used(BlockItems(b, nr))
    ensures Laid(nr, total, avail, b, BlockItems(b, nr))
  {
    hide Off, SumSizes, ParseItem, ItemIn, SizeAt;
    var o, s := Offs(b, nr), BlockItems(b, nr);
    forall i | 0 <= i < nr ensures End(nr, avail) <= o[i] && ItemIn(b, o[i], s[i]) && Size(s[i]) == SizeAt(b, o[i]) {
      ParsedIsIn(b, o[i]);
      ItemInParses(b, o[i], s[i]);
      ItemInParses(b, o[0], ParseItem(b, o[0])) by { ParsedIsIn(b, o[0]); }
      assert i > 0 ==> Off(b, 0) + SizeAt(b, Off(b, 0)) <= Off(b, i);
    }
    assert Placed(b, End(nr, avail), o, s);
  }

  lemma DistinctKeysPermute(a: seq<Item>, b: seq<Item>)
    requires multiset(a) == multiset(b) && DistinctKeys(a)
    ensures DistinctKeys(b)
  {
    assert Distinct(a);
    PermutationDistinct(a, b);
    PermutationMembers(a, b);
    forall i, j | 0 <= i < j < |b| ensures b[i].key != b[j].key {
      assert b[i] in a && b[j] in a;
      var x :| 0 <= x < |a| && a[x] == b[i];
      var y :| 0 <= y < |a| && a[y] == b[j];
    }
  }

  /** Acceptance does not depend on the order of the offset array. */
  lemma AcceptablePermutes(nr: int, total: int, avail: int, b: Image, b1: Image)
    requires |b| == |b1| == BLOCK_SIZE && 0 <= nr <= SLOTS
    requires SameFrom(b, b1, SlotPos(nr))
    requires multiset(Offs(b1, nr)) == multiset(Offs(b, nr))
    requires Acceptable(nr, total, avail, b)
    ensures Acceptable(nr, total, avail, b1)
    ensures multiset(BlockItems(b1, nr)) == multiset(BlockItems(b, nr))
  {
    hide Laid, Off, ItemAt, SameFrom;
    PermutedLayout(nr, total, Gap(nr, avail), b, BlockItems(b, nr), b1);
    DistinctKeysPermute(BlockItems(b, nr), BlockItems(b1, nr));
  }

  lemma SameFromSymmetric(a: Image, b: Image, lo: int)
    requires SameFrom(a, b, lo)
    ensures SameFrom(b, a, lo)
  {
  }

  /** Each key is less than the next. */
  ghost predicate Increasing(items: seq<Item>)
  {
    forall k :: 0 < k < |items| ==> KeyLess(items[k - 1].key, items[k].key)
  }

  /** Adjacent keys that strictly increase make the whole sequence ordered. */
  lemma {:induction false} AdjacentOrdered(items: seq<Item>, i: int, j: int)
    requires Increasing(items)
    requires 0 <= i < j < |items|
    ensures KeyLess(items[i].key, items[j].key)
    decreases j - i
  {
    if i + 1 < j {
      AdjacentOrdered(items, i, j - 1);
      CmpTransitive(items[i].key, items[j - 1].key, items[j].key);
    }
  }

  // ---- the code ----

  /** The offsets sorted in place: the block holds the same payloads in the new order. */
  ghost predicate Resorted(b: Image, b1: Image, nr: int)
    requires 0 <= nr <= SLOTS
  {
    && |b| == |b1| == BLOCK_SIZE
    && SameFrom(b, b1, SlotPos(nr))
    && multiset(Offs(b1, nr)) == multiset(Offs(b, nr))
  }

  lemma SortedResorts(b: Image, b1: Image, nr: int, less: (int, int) -> bool)
    requires |b| == |b1| == BLOCK_SIZE && 0 <= nr <= SLOTS
    requires SameFrom(b, b1, SlotPos(nr)) && Offs(b1, nr) == Sort(less, Offs(b, nr))
    ensures Resorted(b, b1, nr)
  {
  }

  lemma ResortedTransitive(a: Image, b: Image, c: Image, nr: int)
    requires 0 <= nr <= SLOTS && Resorted(a, b, nr) && Resorted(b, c, nr)
    ensures Resorted(a, c, nr)
  {
    hide Off;
  }

  lemma AcceptableAscends(nr: int, total: int, avail: int, b: Image, b1: Image)
    requires 0 <= nr <= SLOTS && Resorted(b, b1, nr) && Acceptable(nr, total, avail, b)
    requires Offs(b1, nr) == Sort(OffLess(), Offs(b, nr))
    ensures Laid(nr, total, Gap(nr, avail), b1, BlockItems(b1, nr))
    ensures Ascending(b1, nr, BlockItems(b1, nr))
  {
    hide Laid, Off, ItemAt, SameFrom, Sort, Ascending, Gap, DistinctKeys;
    AcceptablePermutes(nr, total, avail, b, b1);
    assert StrictWeak(OffLess());
    SortSorts(OffLess(), Offs(b, nr));
    SortedAscends(nr, total, Gap(nr, avail), b1, BlockItems(b1, nr));
  }

  /** The payload half of acceptance, as ScanPayloads decides it. */
  ghost predicate PayloadsOk(nr: int, total: int, avail: int, b: Image)
    requires |b| == BLOCK_SIZE && 0 <= nr <= SLOTS
  {
    exists off :: Scanned(b, nr, nr, off) &&
                  (nr > 0 || SlotPos(0) == off) &&
                  EndU16(nr, avail) <= Off(b, 0) &&
                  total == MAX_FREE - Used(BlockItems(b, nr))
  }

  /** The overlap and free-space half of ngnfs_btree_verify, over ascending offsets. */
  method ScanPayloads(bt: Block) returns (ok: bool)
    requires bt.buf.Length == BLOCK_SIZE && bt.nrItems <= MAX_ITEMS
    ensures ok <==> PayloadsOk(bt.nrItems, bt.totalFree, bt.availFree, bt.buf[..])
  {
    hide Off, SumSizes, ParseItem, Scanned, ItemsAt;
    var nr := bt.nrItems;
    ghost var b := bt.buf[..];
    var off, free := SlotPos(nr), 0;
    ScanStarts(b, nr);
    for i := 0 to nr
      invariant Scanned(b, nr, i, off)
      invariant free == off - SlotPos(nr) - SumSizes(BlockItems(b, nr)[..i])
    {
      var start := bt.GetItemOff(i);
      if start < off || start + ITEM_HEADER > BLOCK_SIZE {
        ScanFails(b, nr, i, off);
        return false;
      }
      var size := ITEM_HEADER + bt.buf[start + 2] + Le16(bt.buf[start], bt.buf[start + 1]);
      if size > BLOCK_SIZE || start + size > BLOCK_SIZE {
        ScanFails(b, nr, i, off);
        return false;
      }
      if start > off {
        free := free + (start - off);
      }
      ScanStep(b, nr, i, off);
      off := start + size;
    }
    ScanEnd(b, nr, off);
    free := free + (BLOCK_SIZE - off);
    var first := bt.GetItemOff(0);
    ok := EndU16(nr, bt.availFree) <= first && bt.totalFree == free;
  }

  lemma ScanStarts(b: Image, nr: int)
    requires |b| == BLOCK_SIZE && 0 <= nr <= SLOTS
    ensures Scanned(b, nr, 0, SlotPos(nr))
    ensures SumSizes(BlockItems(b, nr)[..0]) == 0
  {
  }

  lemma ScanEnd(b: Image, nr: int, off: int)
    requires |b| == BLOCK_SIZE && 0 <= nr <= SLOTS && Scanned(b, nr, nr, off)
    ensures off <= BLOCK_SIZE
    ensures BlockItems(b, nr)[..nr] == BlockItems(b, nr)
    ensures nr == 0 ==> off == SlotPos(0)
  {
  }

  /** Where the scan stops, no longer scan exists. */
  lemma ScanFails(b: Image, nr: int, i: int, off: int)
    requires |b| == BLOCK_SIZE && 0 <= i < nr <= SLOTS
    requires Scanned(b, nr, i, off)
    requires Off(b, i) < off || !Readable(b, Off(b, i))
    ensures forall e :: !Scanned(b, nr, nr, e)
  {
    hide Off, SizeAt, Readable;
  }

  /** The duplicate half: sort by key and compare neighbours. */
  method ScanKeys(bt: Block) returns (ok: bool)
    requires bt.buf.Length == BLOCK_SIZE && bt.nrItems <= MAX_ITEMS
    requires forall o :: o in Offs(bt.buf[..], bt.nrItems) ==> Readable(bt.buf[..], o)
    ensures ok <==> Increasing(BlockItems(bt.buf[..], bt.nrItems))
  {
    hide Off, ParseItem, Readable;
    var nr := bt.nrItems;
    ghost var b := bt.buf[..];
    ghost var s := BlockItems(b, nr);
    if nr > 0 {
      var off := bt.GetItemOff(0);
      ReadableAt(b, nr, 0);
      var prev, _, _ := bt.ReadItem(off);
      for i := 1 to nr
        invariant prev == s[i - 1].key
        invariant forall k :: 0 < k < i ==> KeyLess(s[k - 1].key, s[k].key)
      {
        off := bt.GetItemOff(i);
        ReadableAt(b, nr, i);
        var key, _, _ := bt.ReadItem(off);
        CmpAntisymmetric(key, prev);
        if CmpKeys(key, prev) <= 0 {
          assert !KeyLess(s[i - 1].key, s[i].key);
          return false;
        }
        prev := key;
      }
    }
    ok := true;
  }

  lemma ReadableAt(b: Image, nr: int, i: int)
    requires |b| == BLOCK_SIZE && 0 <= i < nr <= SLOTS
    requires forall o :: o in Offs(b, nr) ==> Readable(b, o)
    ensures Readable(b, Off(b, i)) && BlockItems(b, nr)[i] == ParseItem(b, Off(b, i))
  {
    hide Off, ParseItem, Readable;
    assert Offs(b, nr)[i] in Offs(b, nr);
  }

  lemma KeysAcceptable(b1: Image, b2: Image, nr: int, less: bool)
    requires 0 < nr <= SLOTS && Resorted(b1, b2, nr)
    requires Offs(b2, nr) == Sort(OffKeyLess(b1), Offs(b1, nr))
    requires multiset(BlockItems(b2, nr)) == multiset(BlockItems(b1, nr))
    requires forall o :: o in Offs(b1, nr) ==> ItemAt(b2, o) == ItemAt(b1, o)
    requires less <==> Increasing(BlockItems(b2, nr))
    ensures less <==> DistinctKeys(BlockItems(b1, nr))
    ensures less <==> Ordered(BlockItems(b2, nr))
  {
    hide Off, Sort, SameFrom, ParseItem, Readable;
    var s, p := BlockItems(b2, nr), Offs(b2, nr);
    OffKeyLessIsWeak(b1);
    SortSorts(OffKeyLess(b1), Offs(b1, nr));
    PermutationMembers(p, Offs(b1, nr));
    if less {
      forall i, j | 0 <= i < j < nr ensures KeyLess(s[i].key, s[j].key) && s[i].key != s[j].key {
        AdjacentOrdered(s, i, j);
        CmpZeroIffEqual(s[i].key, s[i].key);
      }
      DistinctKeysPermute(s, BlockItems(b1, nr));
    }
    if DistinctKeys(BlockItems(b1, nr)) {
      DistinctKeysPermute(BlockItems(b1, nr), s);
      forall k | 0 < k < nr ensures KeyLess(s[k - 1].key, s[k].key) {
        assert p[k - 1] in p && p[k] in p;
        assert !OffKeyLess(b1)(p[k], p[k - 1]);
        KeyAtItem(b1, p[k]);
        KeyAtItem(b1, p[k - 1]);
        CmpIsStrictTotalOrder(s[k - 1].key, s[k].key, s[k].key);
      }
    }
  }

  lemma KeyAtItem(b: Image, o: int)
    ensures KeyAt(b, o) == ItemAt(b, o).key
  {
  }

  lemma PayloadsOkIsLaid(nr: int, total: int, avail: int, b1: Image)
    requires 0 < nr <= SLOTS && |b1| == BLOCK_SIZE && PayloadsOk(nr, total, avail, b1)
    ensures Laid(nr, total, Gap(nr, avail), b1, BlockItems(b1, nr))
  {
    hide Off, SumSizes, SizeAt, Readable;
    var off :| Scanned(b1, nr, nr, off) && (nr > 0 || SlotPos(0) == off) &&
               EndU16(nr, avail) <= Off(b1, 0) && total == MAX_FREE - Used(BlockItems(b1, nr));
    ScannedLaid(nr, total, Gap(nr, avail), b1, off);
  }

  lemma {:induction false} LaidScans(nr: int, total: int, avail: int, b: Image, its: seq<Item>, i: int) returns (off: int)
    requires |b| == BLOCK_SIZE && 0 <= i <= nr == |its| <= SLOTS
    requires Laid(nr, total, avail, b, its) && Ascending(b, nr, its)
    ensures Scanned(b, nr, i, off)
    decreases i
  {
    hide Off, SumSizes, SizeAt, Laid, ItemIn, Ascending, Scanned;
    if i == 0 {
      ScanStarts(b, nr);
      off := SlotPos(nr);
    } else {
      var o := LaidScans(nr, total, avail, b, its, i - 1);
      ScanPasses(nr, total, avail, b, its, i - 1, o);
      ScanStep(b, nr, i - 1, o);
      off := Off(b, i - 1) + SizeAt(b, Off(b, i - 1));
    }
  }

  lemma LaidIsPayloadsOk(nr: int, total: int, avail: int, b1: Image)
    requires 0 < nr <= SLOTS && |b1| == BLOCK_SIZE
    requires Laid(nr, total, Gap(nr, avail), b1, BlockItems(b1, nr))
    requires Ascending(b1, nr, BlockItems(b1, nr))
    ensures PayloadsOk(nr, total, avail, b1)
  {
    hide Off, SumSizes, SizeAt, Readable, ItemIn, Ascending, Scanned, Placed;
    var off := LaidScans(nr, total, Gap(nr, avail), b1, BlockItems(b1, nr), nr);
    LaidItem(nr, total, Gap(nr, avail), b1, BlockItems(b1, nr), 0);
    assert EndU16(nr, avail) <= End(nr, Gap(nr, avail));
  }

  /** The two halves of verify decide acceptance of the block as it was before sorting. */
  lemma ScanDecides(nr: int, total: int, avail: int, b0: Image, b1: Image)
    requires 0 < nr <= MAX_ITEMS && Resorted(b0, b1, nr)
    requires Offs(b1, nr) == Sort(OffLess(), Offs(b0, nr))
    ensures PayloadsOk(nr, total, avail, b1) && DistinctKeys(BlockItems(b1, nr)) <==>
            Acceptable(nr, total, avail, b0)
  {
    hide Off, SumSizes, ItemIn, Ascending, Laid, PayloadsOk, SameFrom, Gap, Sort, DistinctKeys, ItemsAt;
    if PayloadsOk(nr, total, avail, b1) && DistinctKeys(BlockItems(b1, nr)) {
      PayloadsOkIsLaid(nr, total, avail, b1);
      SameFromSymmetric(b0, b1, SlotPos(nr));
      AcceptablePermutes(nr, total, avail, b1, b0);
    }
    if Acceptable(nr, total, avail, b0) {
      AcceptableAscends(nr, total, avail, b0, b1);
      AcceptablePermutes(nr, total, avail, b0, b1);
      LaidIsPayloadsOk(nr, total, avail, b1);
    }
  }

  lemma LaidReadable(nr: int, total: int, avail: int, b: Image, b1: Image)
    requires 0 <= nr <= SLOTS && |b| == BLOCK_SIZE && Laid(nr, total, avail, b, BlockItems(b, nr))
    requires Resorted(b, b1, nr)
    ensures forall o :: o in Offs(b1, nr) ==> Readable(b1, o)
    ensures forall o :: o in Offs(b, nr) ==> ItemAt(b1, o) == ItemAt(b, o)
  {
    hide Off, ItemIn, Laid, SameFrom, ParseItem;
    PermutationMembers(Offs(b, nr), Offs(b1, nr));
    forall o | o in Offs(b, nr) ensures Readable(b1, o) && ItemAt(b1, o) == ItemAt(b, o) {
      SortedMemberPlaced(nr, total, avail, b, BlockItems(b, nr), b1, o);
      ItemInParses(b1, o, ItemAt(b, o));
    }
  }

  /** ngnfs_btree_verify.  On a non-empty block it accepts exactly the acceptable images, and
      what it accepts is a valid ordered block iff avail_free does not exceed the block. */
  method Verify(bt: Block) returns (ok: bool)
    requires bt.buf.Length == BLOCK_SIZE
    requires 0 <= bt.totalFree < 65536 && 0 <= bt.availFree < 65536
    modifies bt`items, bt.buf
    ensures bt.nrItems > 0 ==>
              (ok <==> Acceptable(bt.nrItems, bt.totalFree, bt.availFree, old(bt.buf[..])))
    ensures bt.nrItems == 0 ==>
              (ok <==> EndU16(0, bt.availFree) <= old(Off(bt.buf[..], 0)) && bt.totalFree == MAX_FREE)
    ensures ok && bt.nrItems > 0 ==>
              && bt.nrItems <= MAX_ITEMS && Ordered(bt.items)
              && multiset(bt.items) == multiset(BlockItems(old(bt.buf[..]), bt.nrItems))
              && (bt.Valid() <==> bt.availFree <= MAX_FREE)
    ensures bt.nrItems <= MAX_ITEMS ==> Resorted(old(bt.buf[..]), bt.buf[..], bt.nrItems)
  {
    hide Off, SumSizes, ItemIn, Laid, SameFrom, Sort, BlockItems, Acceptable, Ordered, PayloadsOk, Resorted;
    hide Used, Increasing, Readable, OffKeyLess, OffLess, EndU16;
    ghost var b0, nr, total, avail := bt.buf[..], bt.nrItems, bt.totalFree, bt.availFree;
    if bt.nrItems > MAX_ITEMS {
      TooManyItems(nr, total, avail, b0);
      return false;
    }
    SortOffs(bt, OffLess());
    ghost var b1 := bt.buf[..];
    SortedResorts(b0, b1, nr, OffLess());
    ok := ScanPayloads(bt);
    PayloadsDecided(nr, total, avail, b0, b1, ok);
    if !ok {
      return;
    }
    SortOffs(bt, OffKeyLess(bt.buf[..]));
    ghost var b2 := bt.buf[..];
    SortedResorts(b1, b2, nr, OffKeyLess(b1));
    ResortedTransitive(b0, b1, b2, nr);
    KeysReadable(nr, total, avail, b1, b2);
    ok := ScanKeys(bt);
    if nr > 0 {
      KeysDecided(nr, total, avail, b0, b1, b2, ok);
      if ok {
        bt.items := BlockItems(b2, nr);
        assert bt.buf[..] == b2;
      }
    }
  }

  lemma PayloadsDecided(nr: int, total: int, avail: int, b0: Image, b1: Image, ok: bool)
    requires 0 <= nr <= MAX_ITEMS && Resorted(b0, b1, nr)
    requires Offs(b1, nr) == Sort(OffLess(), Offs(b0, nr))
    requires ok <==> PayloadsOk(nr, total, avail, b1)
    ensures nr == 0 ==> (ok <==> EndU16(0, avail) <= Off(b0, 0) && total == MAX_FREE)
    ensures nr > 0 && !ok ==> !Acceptable(nr, total, avail, b0)
  {
    hide Off, SumSizes, ItemIn, Ascending, Laid, SameFrom, Sort, DistinctKeys, ItemsAt, Acceptable, Scanned;
    if nr == 0 {
      EmptyPayloads(total, avail, b0, b1);
    } else {
      ScanDecides(nr, total, avail, b0, b1);
    }
  }

  lemma KeysReadable(nr: int, total: int, avail: int, b1: Image, b2: Image)
    requires 0 <= nr <= MAX_ITEMS && Resorted(b1, b2, nr) && PayloadsOk(nr, total, avail, b1)
    ensures forall o :: o in Offs(b2, nr) ==> Readable(b2, o)
    ensures nr == 0 ==> Increasing(BlockItems(b2, nr))
  {
    hide Off, SumSizes, ItemIn, Laid, SameFrom, PayloadsOk, Readable;
    if nr > 0 {
      PayloadsOkIsLaid(nr, total, avail, b1);
      LaidReadable(nr, total, Gap(nr, avail), b1, b2);
    }
  }

  lemma KeysDecided(nr: int, total: int, avail: int, b0: Image, b1: Image, b2: Image, ok: bool)
    requires 0 < nr <= MAX_ITEMS && 0 <= avail < 65536
    requires Resorted(b0, b1, nr) && Offs(b1, nr) == Sort(OffLess(), Offs(b0, nr))
    requires Resorted(b1, b2, nr) && Offs(b2, nr) == Sort(OffKeyLess(b1), Offs(b1, nr))
    requires PayloadsOk(nr, total, avail, b1)
    requires ok <==> Increasing(BlockItems(b2, nr))
    ensures ok <==> Acceptable(nr, total, avail, b0)
    ensures ok ==> Ordered(BlockItems(b2, nr)) &&
                   multiset(BlockItems(b2, nr)) == multiset(BlockItems(b0, nr))
    ensures ok ==> (Laid(nr, total, avail, b2, BlockItems(b2, nr)) <==> avail <= MAX_FREE)
  {
    hide Off, SumSizes, ItemIn, Laid, SameFrom, PayloadsOk, Readable, Sort, Ordered, Acceptable, DistinctKeys;
    hide ItemsAt, OffKeyLess;
    ScanDecides(nr, total, avail, b0, b1);
    PayloadsOkIsLaid(nr, total, avail, b1);
    PermutedLayout(nr, total, Gap(nr, avail), b1, BlockItems(b1, nr), b2);
    LaidReadable(nr, total, Gap(nr, avail), b1, b2);
    KeysAcceptable(b1, b2, nr, ok);
    if ok {
      AcceptablePermutes(nr, total, avail, b0, b1);
      GapIsAvail(nr, total, avail, b2, BlockItems(b2, nr));
    }
  }

  lemma TooManyItems(nr: int, total: int, avail: int, b: Image)
    requires |b| == BLOCK_SIZE && nr > MAX_ITEMS
    ensures !Acceptable(nr, total, avail, b)
  {
  }

  lemma EmptyPayloads(total: int, avail: int, b0: Image, b1: Image)
    requires Resorted(b0, b1, 0)
    ensures PayloadsOk(0, total, avail, b1) <==>
            EndU16(0, avail) <= Off(b0, 0) && total == MAX_FREE
  {
    ScanStarts(b1, 0);
    assert Off(b1, 0) == Off(b0, 0);
  }

  lemma GapIsAvail(nr: int, total: int, avail: int, b: Image, items: seq<Item>)
    requires 0 <= nr <= MAX_ITEMS && 0 <= avail < 65536
    requires Laid(nr, total, Gap(nr, avail), b, items)
    ensures Laid(nr, total, avail, b, items) <==> avail <= MAX_FREE
  {
    hide Placed, Used;
  }

  /** Every laid out non-empty block of insertable items in key order is accepted, MAX_ITEMS bound
      included. TreeRun proves that every block of a tree is one, after any run. */
  lemma ReachableBlocksAreAccepted(nr: int, total: int, avail: int, b: Image, items: seq<Item>)
    requires Laid(nr, total, avail, b, items) && nr > 0
    requires Ordered(items) && AllInsertable(items)
    ensures |b| == BLOCK_SIZE && Acceptable(nr, total, avail, b)
  {
    hide Placed, SumSizes;
    LaidBounds(nr, total, avail, b, items);
    ItemCountBound(nr, total, avail, b, items);
    LaidItemAt(nr, total, avail, b, items);
    forall i, j | 0 <= i < j < nr ensures items[i].key != items[j].key {
      CmpZeroIffEqual(items[i].key, items[i].key);
      assert KeyLess(items[i].key, items[j].key);
    }
  }

  /** An avail_free that makes the wrapped end of the gap the start of the block. */
  function WrappingAvail(nr: int): int
  {
    65536 - SlotPos(nr)
  }

  /** avail_free_end wraps: with this avail_free any block that holds items is still accepted,
      yet the gap it claims runs past the end of the block, so it has no valid layout. */
  lemma WrappedGapIsAccepted(nr: int, total: int, avail: int, b: Image, items: seq<Item>)
    requires Laid(nr, total, avail, b, items) && nr > 0
    requires Ordered(items) && AllInsertable(items)
    ensures |b| == BLOCK_SIZE && Acceptable(nr, total, WrappingAvail(nr), b)
    ensures 0 <= WrappingAvail(nr) < 65536
    ensures forall its :: !Laid(nr, total, WrappingAvail(nr), b, its)
  {
    hide SumSizes, ItemIn;
    ReachableBlocksAreAccepted(nr, total, avail, b, items);
    assert Gap(nr, WrappingAvail(nr)) == 0;
    assert Placed(b, End(nr, 0), Offs(b, nr), BlockItems(b, nr));
  }

  /** verify reads item_off[0] of an empty block, so a freshly initialised one is accepted exactly when the
      stale bytes there name an offset past the block; over zeroes it is rejected. */
  method VerifyFresh(bt: Block, level: Byte) returns (ok: bool)
    requires bt.buf.Length == BLOCK_SIZE
    modifies bt, bt.buf
    ensures ok <==> old(Off(bt.buf[..], 0)) >= BLOCK_SIZE
    ensures (forall k :: 0 <= k < BLOCK_SIZE ==> old(bt.buf[k]) == 0) ==> !ok
  {
    ghost var b := bt.buf[..];
    bt.InitBlock(level);
    assert bt.buf[..] == b;
    LaidBounds(bt.nrItems, bt.totalFree, bt.availFree, b, []);
    ok := Verify(bt);
  }
}
