/** Moving items between neighbouring blocks (shared/btree.c:255-337). */
module Moving {
  import opened Layout
  import opened Edits
  import opened ByteEdits
  import opened BtreeBlock
  import opened Compacting

  /** How many items the loop takes from the front: it goes on while moving <= target. */
  function TakeCount(items: seq<Item>, target: int): (n: int)
    ensures 0 <= n <= |items|
  {
    if items == [] || target < 0 then 0
    else 1 + TakeCount(items[1..], target - TotalSize(items[0]))
  }

  /** The same from the back, with the moving <= target test of the other direction. */
  function TakeCountRight(items: seq<Item>, target: int): (n: int)
    ensures 0 <= n <= |items|
    decreases |items|
  {
    if items == [] || target < 0 then 0
    else 1 + TakeCountRight(items[..|items| - 1], target - TotalSize(items[|items| - 1]))
  }

  /** Half of the difference in use, rounded down as the arithmetic shift does. */
  function Target(dst: seq<Item>, src: seq<Item>): int
  {
    (Used(src) - Used(dst)) / 2
  }

  function MoveCount(dst: seq<Item>, src: seq<Item>, srcFirst: bool, drain: bool): (n: int)
    ensures 0 <= n <= |src|
  {
    if drain then |src|
    else if srcFirst then TakeCount(src, Target(dst, src))
    else TakeCountRight(src, Target(dst, src))
  }

  /** The n items next to the destination. */
  function Moved(src: seq<Item>, srcFirst: bool, n: int): (m: seq<Item>)
    requires 0 <= n <= |src|
    ensures |m| == n
  {
    if srcFirst then src[..n] else src[|src| - n..]
  }

  function Kept(src: seq<Item>, srcFirst: bool, n: int): (m: seq<Item>)
    requires 0 <= n <= |src|
    ensures |m| == |src| - n
  {
    if srcFirst then src[n..] else src[..|src| - n]
  }

  /** The destination after the move. */
  function Joined(dst: seq<Item>, moved: seq<Item>, srcFirst: bool): seq<Item>
  {
    if srcFirst then dst + moved else moved + dst
  }

  /** What a move must fit into. */
  function MovedUse(dst: seq<Item>, src: seq<Item>, srcFirst: bool, drain: bool): int
  {
    Used(Moved(src, srcFirst, MoveCount(dst, src, srcFirst, drain)))
  }

  lemma UsedOne(it: Item)
    ensures Used([it]) == TotalSize(it)
  {
    SumOne(it);
  }

  lemma UsedFirst(items: seq<Item>, i: int)
    requires 0 <= i < |items|
    ensures Used(items[..i + 1]) == Used(items[..i]) + TotalSize(items[i])
    ensures Used(items[i..]) == TotalSize(items[i]) + Used(items[i + 1..])
  {
    assert items[..i + 1] == items[..i] + [items[i]];
    assert items[i..] == [items[i]] + items[i + 1..];
    UsedConcat(items[..i], [items[i]]);
    UsedConcat([items[i]], items[i + 1..]);
    UsedOne(items[i]);
  }

  method CountFirst(src: Block, target: int) returns (nr: int, moving: int)
    requires src.Valid()
    ensures nr == TakeCount(src.items, target) && moving == Used(src.items[..nr])
  {
    hide Laid, Used, ItemIn, Off;
    LaidBounds(src.nrItems, src.totalFree, src.availFree, src.buf[..], src.items);
    ghost var its := src.items;
    assert its[0..] == its && its[..0] == [];
    EmptyUsed();
    nr, moving := 0, 0;
    var i: int := 0;
    while moving <= target && i < src.nrItems
      invariant 0 <= i == nr <= src.nrItems
      invariant moving == Used(its[..i])
      invariant nr + TakeCount(its[i..], target - moving) == TakeCount(its, target)
      decreases src.nrItems - i
    {
      var _, size := src.ItemExtent(i);
      UsedFirst(its, i);
      assert its[i..][1..] == its[i + 1..];
      moving := moving + (OFF_SIZE + size);
      i, nr := i + 1, nr + 1;
    }
  }

  method CountLast(src: Block, target: int) returns (nr: int, moving: int)
    requires src.Valid()
    ensures nr == TakeCountRight(src.items, target) && moving == Used(src.items[|src.items| - nr..])
  {
    hide Laid, Used, ItemIn, Off;
    LaidBounds(src.nrItems, src.totalFree, src.availFree, src.buf[..], src.items);
    ghost var its := src.items;
    assert its[..|its|] == its && its[|its|..] == [];
    EmptyUsed();
    nr, moving := 0, 0;
    var i: int := src.nrItems - 1;
    while moving <= target && i >= 0
      invariant -1 <= i < src.nrItems && nr == src.nrItems - 1 - i
      invariant moving == Used(its[i + 1..])
      invariant nr + TakeCountRight(its[..i + 1], target - moving) == TakeCountRight(its, target)
    {
      var _, size := src.ItemExtent(i);
      UsedFirst(its, i);
      assert its[..i + 1][..i] == its[..i];
      moving := moving + (OFF_SIZE + size);
      i, nr := i - 1, nr + 1;
    }
    assert its[i + 1..] == its[|its| - nr..] && |its[..i + 1]| == i + 1;
  }

  /** Count the items to move and the bytes they use. */
  method CountMoving(dst: Block, src: Block, srcFirst: bool, drain: bool) returns (nr: int, moving: int)
    requires dst.Valid() && src.Valid()
    ensures nr == MoveCount(dst.items, src.items, srcFirst, drain)
    ensures moving == Used(Moved(src.items, srcFirst, nr))
  {
    hide Laid, Used, ItemIn, Off, TakeCount, TakeCountRight;
    LaidBounds(src.nrItems, src.totalFree, src.availFree, src.buf[..], src.items);
    LaidBounds(dst.nrItems, dst.totalFree, dst.availFree, dst.buf[..], dst.items);
    var usedSrc := BLOCK_SIZE - (HEADER_SIZE + src.totalFree);
    var usedDst := BLOCK_SIZE - (HEADER_SIZE + dst.totalFree);
    if drain {
      nr := src.nrItems;
      moving := usedSrc;
      assert src.items[..nr] == src.items == src.items[0..];
    } else {
      var target := (usedSrc - usedDst) / 2;
      assert target == Target(dst.items, src.items);
      if srcFirst {
        nr, moving := CountFirst(src, target);
      } else {
        nr, moving := CountLast(src, target);
      }
    }
  }

  lemma EmptyUsed()
    ensures Used([]) == 0
  {
  }

  /** The first i of the moved items are in place. */
  ghost predicate RunAdding(nr: int, end: int, b0: Image, b: Image, p: int, moved: seq<Item>, i: int)
    requires |b0| == |b| == BLOCK_SIZE && 0 <= p <= nr && nr + |moved| <= SLOTS && 0 <= i <= |moved|
  {
    && SameFrom(b0, b, end)
    && (forall k :: 0 <= k < p ==> Off(b, k) == Off(b0, k))
    && (forall k :: p + |moved| <= k < nr + |moved| ==> Off(b, k) == Off(b0, k - |moved|))
    && (forall j :: 0 <= j < i ==> Off(b, p + j) == RunOff(end, moved, j))
    && (forall j :: 0 <= j < i ==> ItemIn(b, RunOff(end, moved, j), moved[j]))
  }

  lemma RunAddingOff(nr: int, end: int, b: Image, p: int, moved: seq<Item>, i: int, k: int)
    requires |b| == BLOCK_SIZE && 0 <= p <= nr && nr + |moved| <= SLOTS && 0 <= i < |moved|
    requires SlotPos(nr + |moved|) <= end - SumSizes(moved) && end <= BLOCK_SIZE
    requires 0 <= k < nr + |moved| && Encodable(moved[i])
    ensures 0 <= RunOff(end, moved, i) && RunOff(end, moved, i) + Size(moved[i]) <= end
    ensures var o := RunOff(end, moved, i);
            Off(Splice(WithOff(b, p + i, o), o, Encode(moved[i])), k) == if k == p + i then o else Off(b, k)
  {
    hide Off, Encode, Splice, WithOff, SumSizes, RunOff;
    RunOffBounds(end, moved, i);
    var o := RunOff(end, moved, i);
    WithOffAt(b, p + i, o, k);
    PayloadWriteAt(WithOff(b, p + i, o), o, Encode(moved[i]), k);
  }

  lemma RunAddingItem(nr: int, end: int, b: Image, p: int, moved: seq<Item>, i: int, j: int)
    requires |b| == BLOCK_SIZE && 0 <= p <= nr && nr + |moved| <= SLOTS && 0 <= j <= i < |moved|
    requires SlotPos(nr + |moved|) <= end - SumSizes(moved) && end <= BLOCK_SIZE
    requires Encodable(moved[i])
    requires j < i ==> ItemIn(b, RunOff(end, moved, j), moved[j])
    ensures 0 <= RunOff(end, moved, i) && RunOff(end, moved, i) + Size(moved[i]) <= end
    ensures var o := RunOff(end, moved, i);
            ItemIn(Splice(WithOff(b, p + i, o), o, Encode(moved[i])), RunOff(end, moved, j), moved[j])
  {
    hide Off, Encode, Splice, WithOff, SumSizes, RunOff, ItemIn, SameFrom;
    RunOffBounds(end, moved, i);
    var o, it := RunOff(end, moved, i), moved[i];
    var c := WithOff(b, p + i, o);
    PayloadWriteSame(c, o, Encode(it), o + Size(it));
    PayloadIs(Splice(c, o, Encode(it)), o, it);
    if j < i {
      RunOffsApart(end, moved, j, i);
      WithOffSame(b, p + i, o, o + Size(it));
      SameFromTransitive(b, c, Splice(c, o, Encode(it)), o + Size(it));
      ItemStays(b, Splice(c, o, Encode(it)), o + Size(it), RunOff(end, moved, j), moved[j]);
    }
  }

  lemma RunAddingStep(nr: int, end: int, b0: Image, b: Image, p: int, moved: seq<Item>, i: int)
    requires |b0| == |b| == BLOCK_SIZE && 0 <= p <= nr && nr + |moved| <= SLOTS && 0 <= i < |moved|
    requires SlotPos(nr + |moved|) <= end - SumSizes(moved) && end <= BLOCK_SIZE
    requires RunAdding(nr, end, b0, b, p, moved, i) && Encodable(moved[i])
    ensures 0 <= RunOff(end, moved, i) && RunOff(end, moved, i) + Size(moved[i]) <= end
    ensures var o := RunOff(end, moved, i);
            RunAdding(nr, end, b0, Splice(WithOff(b, p + i, o), o, Encode(moved[i])), p, moved, i + 1)
  {
    hide Off, Encode, Splice, WithOff, SumSizes, RunOff, ItemIn, SameFrom;
    RunOffBounds(end, moved, i);
    var o := RunOff(end, moved, i);
    var c := WithOff(b, p + i, o);
    var r := Splice(c, o, Encode(moved[i]));
    forall k | 0 <= k < nr + |moved| ensures Off(r, k) == if k == p + i then o else Off(b, k) {
      RunAddingOff(nr, end, b, p, moved, i, k);
    }
    forall j | 0 <= j < i + 1 ensures Off(r, p + j) == RunOff(end, moved, j) {
      RunAddingOff(nr, end, b, p, moved, i, p + j);
    }
    forall j | 0 <= j < i + 1 ensures ItemIn(r, RunOff(end, moved, j), moved[j]) {
      RunAddingItem(nr, end, b, p, moved, i, j);
    }
    WithOffSame(b, p + i, o, end);
    PayloadWriteSame(c, o, Encode(moved[i]), end);
    SameFromTransitive(b0, b, c, end);
    SameFromTransitive(b0, c, r, end);
  }

  lemma RunAddingStarts(nr: int, end: int, b0: Image, b: Image, srcFirst: bool, moved: seq<Item>)
    requires |b0| == BLOCK_SIZE && nr + |moved| <= SLOTS && 0 <= nr
    requires SlotPos(nr + |moved|) <= end
    requires b == if srcFirst then b0 else MovedOffs(b0, |moved|, 0, nr)
    ensures RunAdding(nr, end, b0, b, if srcFirst then nr else 0, moved, 0)
  {
    hide Off, MovedOffs;
    if !srcFirst {
      forall k | |moved| <= k < nr + |moved| ensures Off(b, k) == Off(b0, k - |moved|) {
        MovedOffsAt(b0, |moved|, 0, nr, k);
      }
      MovedOffsSame(b0, |moved|, 0, nr, end);
    }
  }

  lemma JoinedRun(dst: seq<Item>, moved: seq<Item>, srcFirst: bool)
    ensures Joined(dst, moved, srcFirst) == InsertRun(dst, if srcFirst then |dst| else 0, moved)
  {
  }

  lemma KeptRun(src: seq<Item>, srcFirst: bool, n: int)
    requires 0 <= n <= |src|
    ensures var p := if srcFirst then 0 else |src| - n;
            && Kept(src, srcFirst, n) == RemoveRun(src, p, n)
            && Moved(src, srcFirst, n) == src[p..p + n]
  {
  }

  /** Everything moved into a compacted block: the layout of the joined items. */
  lemma RunAddingEnds(nr: int, total: int, b0: Image, items: seq<Item>, srcFirst: bool, moved: seq<Item>, b: Image)
    requires Laid(nr, total, total, b0, items) && |b| == BLOCK_SIZE
    requires Used(moved) <= total && 0 <= nr && nr + |moved| <= SLOTS
    requires RunAdding(nr, End(nr, total), b0, b, if srcFirst then nr else 0, moved, |moved|)
    ensures Laid(nr + |moved|, total - Used(moved), total - Used(moved), b, Joined(items, moved, srcFirst))
  {
    hide Off, ItemIn, RunOff, SameFrom, Laid;
    LaidBounds(nr, total, total, b0, items);
    JoinedRun(items, moved, srcFirst);
    RunAddedKeepsLayout(nr, total, total, b0, items, if srcFirst then nr else 0, moved, b);
  }

  /** The source after its offsets are collapsed.  avail_free is left as it was: the offset
      array only shrank, so the end of the gap is below every payload that stays. */
  lemma SourceShrinks(nr: int, total: int, avail: int, b0: Image, items: seq<Item>, srcFirst: bool, n: int, b1: Image)
    requires Laid(nr, total, avail, b0, items) && 0 <= n <= nr <= SLOTS
    requires b1 == if srcFirst then MovedOffs(b0, 0, n, nr - n) else b0
    ensures |items| == nr
    ensures Laid(nr - n, total + Used(Moved(items, srcFirst, n)), avail, b1, Kept(items, srcFirst, n))
  {
    hide Off, ItemIn, SameFrom, Laid, MovedOffs, Used;
    LaidBounds(nr, total, avail, b0, items);
    KeptRun(items, srcFirst, n);
    var p := if srcFirst then 0 else nr - n;
    var end := End(nr, avail);
    if srcFirst {
      forall i | 0 <= i < nr - n ensures Off(b1, i) == Off(b0, i + n) {
        MovedOffsAt(b0, 0, n, nr - n, i);
      }
      MovedOffsSame(b0, 0, n, nr - n, end);
    } else {
      SameFromReflexive(b0, end);
    }
    forall i | 0 <= i < nr && !(p <= i < p + n) ensures End(nr - n, avail) <= Off(b0, i) {
      LaidItem(nr, total, avail, b0, items, i);
    }
    assert RunRemoved(nr, end, b0, b1, p, n);
    RunRemovedKeepsLayout(nr, total, avail, b0, items, p, n, b1, avail);
  }

  lemma MovedFits(nr: int, total: int, b: Image, items: seq<Item>, moved: seq<Item>)
    requires Laid(nr, total, total, b, items) && Used(moved) <= total
    ensures 0 <= nr && nr + |moved| <= SLOTS
    ensures SlotPos(nr + |moved|) <= End(nr, total) - SumSizes(moved) && End(nr, total) <= BLOCK_SIZE
  {
    hide SumSizes, Placed;
  }

  /** The loop that copies the payloads, with the offset of the first one that is filled. */
  method CopyRun(dst: Block, src: Block, s: int, d: int, nr: int, ghost moved: seq<Item>, ghost nr0: int, ghost b0: Image)
    requires dst != src && dst.buf != src.buf && src.Valid()
    requires dst.buf.Length == BLOCK_SIZE && |b0| == BLOCK_SIZE && dst.nrItems == nr0
    requires 0 <= s && 0 <= nr == |moved| && s + nr <= src.nrItems == |src.items|
    requires moved == src.items[s..s + nr]
    requires 0 <= d <= nr0 && nr0 + nr <= SLOTS && 0 <= dst.availFree
    requires SlotPos(nr0 + nr) <= End(nr0, dst.availFree) - SumSizes(moved)
    requires End(nr0, dst.availFree) <= BLOCK_SIZE
    requires RunAdding(nr0, End(nr0, dst.availFree), b0, dst.buf[..], d, moved, 0)
    modifies dst.buf
    ensures RunAdding(nr0, End(nr0, dst.availFree), b0, dst.buf[..], d, moved, nr)
  {
    hide Laid, Off, SumSizes, RunAdding, ItemIn, Encode, Splice, WithOff, SizeAt, ParseItem;
    ghost var end := End(nr0, dst.availFree);
    ghost var sb := src.buf[..];
    var off := SlotPos(dst.nrItems) + dst.availFree;
    NoSum(moved);
    for i := 0 to nr
      invariant src.buf[..] == sb
      invariant off == end - SumSizes(moved[..i])
      invariant RunAdding(nr0, end, b0, dst.buf[..], d, moved, i)
    {
      ghost var b := dst.buf[..];
      var from := src.ItemPtr(s + i);
      PayloadBytes(sb, from, moved[i]);
      var _, size, _ := src.ReadItem(from);
      SumSplit(moved, i);
      RunAddingStep(nr0, end, b0, b, d, moved, i);
      off := off - size;
      dst.SetItemOff(d + i, off);
      dst.Put(off, src.buf[from..from + size]);
      assert src.buf[from..from + size] == sb[from..from + size];
    }
    assert moved[..nr] == moved;
  }

  lemma PayloadIs(b: Image, off: int, it: Item)
    requires Encodable(it) && 0 <= off && off + Size(it) <= |b|
    requires b[off..off + Size(it)] == Encode(it)
    ensures ItemIn(b, off, it)
  {
  }

  lemma NoSum(moved: seq<Item>)
    ensures SumSizes(moved[..0]) == 0
  {
  }

  lemma PayloadBytes(b: Image, off: int, it: Item)
    requires ItemIn(b, off, it)
    ensures Encodable(it) && 0 <= off && off + Size(it) <= |b|
    ensures b[off..off + Size(it)] == Encode(it)
  {
  }

  /** move_items: the items next to dst leave src and join dst at that end, in order. */
  method MoveItems(dst: Block, src: Block, srcFirst: bool, drain: bool)
    requires dst != src && dst.buf != src.buf
    requires dst.Valid() && src.Valid() && Ordered(dst.items) && src.nrItems > 0
    requires MovedUse(dst.items, src.items, srcFirst, drain) <= dst.totalFree
    modifies dst, dst.buf, src, src.buf
    ensures dst.Valid() && src.Valid()
    ensures var n := MoveCount(old(dst.items), old(src.items), srcFirst, drain);
            && dst.items == Joined(old(dst.items), Moved(old(src.items), srcFirst, n), srcFirst)
            && src.items == Kept(old(src.items), srcFirst, n)
    ensures dst.availFree == dst.totalFree && src.availFree == old(src.availFree)
    ensures dst.bnr == old(dst.bnr) && src.bnr == old(src.bnr)
    ensures dst.level == old(dst.level) && src.level == old(src.level)
  {
    hide Laid, Off, SumSizes, RunAdding, MovedOffs, ItemIn, Ordered, MoveCount, Moved, Kept, Joined, Used, Hole;
    ghost var ditems, sitems, sb := dst.items, src.items, src.buf[..];
    LaidBounds(src.nrItems, src.totalFree, src.availFree, sb, sitems);
    var nr, moving := CountMoving(dst, src, srcFirst, drain);
    ghost var moved := Moved(sitems, srcFirst, nr);
    var s := if srcFirst then 0 else src.nrItems - nr;
    var d := if srcFirst then dst.nrItems else 0;
    Compact(dst);
    ghost var b0, nr0, total := dst.buf[..], dst.nrItems, dst.totalFree;
    LaidBounds(nr0, total, total, b0, ditems);
    MovedFits(nr0, total, b0, ditems, moved);
    if !srcFirst {
      dst.MemmoveTailOffs(0, nr);
    }
    RunAddingStarts(nr0, End(nr0, total), b0, dst.buf[..], srcFirst, moved);
    KeptRun(sitems, srcFirst, nr);
    CopyRun(dst, src, s, d, nr, moved, nr0, b0);
    ghost var b1 := dst.buf[..];
    RunAddingEnds(nr0, total, b0, ditems, srcFirst, moved, b1);
    assert src.buf[..] == sb;
    if srcFirst {
      src.MemmoveTailOffs(nr, -nr);
    }
    ghost var sb1 := src.buf[..];
    SourceShrinks(src.nrItems, src.totalFree, src.availFree, sb, sitems, srcFirst, nr, sb1);
    src.nrItems := src.nrItems - nr;
    src.totalFree := src.totalFree + moving;
    src.items := Kept(sitems, srcFirst, nr);
    assert src.buf[..] == sb1;
    dst.nrItems := dst.nrItems + nr;
    dst.totalFree := dst.totalFree - moving;
    dst.availFree := dst.totalFree;
    dst.items := Joined(ditems, moved, srcFirst);
    assert dst.buf[..] == b1 && src.buf[..] == sb1;
  }
}
