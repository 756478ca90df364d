/** Splitting a full block and refilling a sparse one, with the parent kept in step
    (shared/btree.c:339-385, 457-509). */
module Refilling {
  import opened Keys
  import opened Layout
  import opened Edits
  import opened ByteEdits
  import opened BtreeBlock
  import opened Moving
  import opened Tree
  import opened TreeInvariant

  /** A payload overwritten by one of the same size. */
  lemma ReplacedItem(nr: int, total: int, avail: int, b: Image, items: seq<Item>, pos: int, it: Item, b1: Image)
    requires Laid(nr, total, avail, b, items) && 0 <= pos < nr == |items| && nr <= SLOTS
    requires |b| == BLOCK_SIZE && Encodable(it) && Size(it) == Size(items[pos])
    requires Off(b, pos) + Size(it) <= BLOCK_SIZE
    requires b1 == Splice(b, Off(b, pos), Encode(it))
    ensures Laid(nr, total, avail, b1, items[pos := it])
  {
    hide Off, Encode, ItemIn, Splice, SumSizes, SameFrom;
    var s, o1, o := items[pos := it], Offs(b1, nr), Offs(b, nr);
    LaidBounds(nr, total, avail, b, items);
    forall i | 0 <= i < nr ensures o1[i] == o[i] && End(nr, avail) <= o1[i] && ItemIn(b1, o1[i], s[i]) {
      ReplacedAt(nr, total, avail, b, items, pos, it, b1, i);
    }
    forall i, j | 0 <= i < j < nr ensures Apart(o1[i], Size(s[i]), o1[j], Size(s[j])) {
      LaidApart(nr, total, avail, b, items, i, j);
    }
    assert Placed(b1, End(nr, avail), o1, s);
    ReplacedSum(items, pos, it);
  }

  lemma ReplacedSum(items: seq<Item>, pos: int, it: Item)
    requires 0 <= pos < |items| && Size(it) == Size(items[pos])
    ensures SumSizes(items[pos := it]) == SumSizes(items)
  {
    var s := items[pos := it];
    SumSplit(items, pos);
    SumSplit(s, pos);
    assert s[..pos] == items[..pos] && s[pos + 1..] == items[pos + 1..];
  }

  lemma ReplacedAt(nr: int, total: int, avail: int, b: Image, items: seq<Item>, pos: int, it: Item, b1: Image, i: int)
    requires Laid(nr, total, avail, b, items) && 0 <= pos < nr == |items| && nr <= SLOTS
    requires |b| == BLOCK_SIZE && Encodable(it) && Size(it) == Size(items[pos])
    requires Off(b, pos) + Size(it) <= BLOCK_SIZE
    requires b1 == Splice(b, Off(b, pos), Encode(it))
    requires 0 <= i < nr
    ensures Off(b1, i) == Off(b, i) >= End(nr, avail) && ItemIn(b1, Off(b, i), items[pos := it][i])
  {
    hide Off, Encode, Splice, SumSizes, Laid, ItemIn, SameFrom;
    LaidBounds(nr, total, avail, b, items);
    LaidItem(nr, total, avail, b, items, pos);
    LaidItem(nr, total, avail, b, items, i);
    var off := Off(b, pos);
    PayloadWriteAt(b, off, Encode(it), i);
    PayloadWriteSame(b, off, Encode(it), off + Size(it));
    if i == pos {
      PayloadIs(b1, off, it);
    } else {
      if i < pos {
        LaidApart(nr, total, avail, b, items, i, pos);
      } else {
        LaidApart(nr, total, avail, b, items, pos, i);
      }
      ItemBeside(b, off, Encode(it), Off(b, i), items[i]);
    }
  }

  lemma ItemBeside(b: Image, off: int, bs: seq<Byte>, at: int, it: Item)
    requires 0 <= off && off + |bs| <= |b| && ItemIn(b, at, it)
    requires Apart(at, Size(it), off, |bs|)
    ensures ItemIn(Splice(b, off, bs), at, it)
  {
    hide Encode;
    var r := Splice(b, off, bs);
    assert r[at..at + Size(it)] == b[at..at + Size(it)];
  }

  /** Overwriting the key bytes of a payload by a key of the same length. */
  lemma KeyOverwritten(b: Image, off: int, it: Item, key: Key)
    requires ItemIn(b, off, it) && |key| == |it.key|
    ensures 0 <= off && off + Size(it) <= |b| && Encodable(Item(key, it.val))
    ensures Splice(b, off + ITEM_HEADER, key) == Splice(b, off, Encode(Item(key, it.val)))
  {
    var s := b[off..off + Size(it)];
    assert s == Encode(it);
    var e := Encode(Item(key, it.val));
    var l, r := Splice(b, off + ITEM_HEADER, key), Splice(b, off, e);
    forall k | 0 <= k < |b| ensures l[k] == r[k] {
      if off <= k < off + Size(it) && !(off + ITEM_HEADER <= k < off + ITEM_HEADER + |key|) {
        assert b[k] == s[k - off] == Encode(it)[k - off] == e[k - off];
      }
    }
  }

  /** Overwriting the value bytes of a payload by a value of the same length. */
  lemma ValOverwritten(b: Image, off: int, it: Item, val: seq<Byte>)
    requires ItemIn(b, off, it) && |val| == |it.val|
    ensures 0 <= off && off + Size(it) <= |b| && Encodable(Item(it.key, val))
    ensures Splice(b, off + ITEM_HEADER + |it.key|, val) == Splice(b, off, Encode(Item(it.key, val)))
  {
    var s := b[off..off + Size(it)];
    assert s == Encode(it);
    var e := Encode(Item(it.key, val));
    var l, r := Splice(b, off + ITEM_HEADER + |it.key|, val), Splice(b, off, e);
    forall k | 0 <= k < |b| ensures l[k] == r[k] {
      if off <= k < off + ITEM_HEADER + |it.key| {
        assert b[k] == s[k - off] == Encode(it)[k - off] == e[k - off];
      }
    }
  }

  method LastKey(child: Block) returns (key: Key)
    requires child.Valid() && child.nrItems > 0
    ensures |child.items| == child.nrItems && key == child.items[child.nrItems - 1].key
    ensures 0 <= |key| <= 255
  {
    hide Laid, Off, Encode, ParseItem;
    LaidBounds(child.nrItems, child.totalFree, child.availFree, child.buf[..], child.items);
    var off := child.ItemPtr(child.nrItems - 1);
    var k, _, _ := child.ReadItem(off);
    key := k;
  }

  /** insert_parent_item. */
  method InsertParentItem(bt: Block, pos: int, child: Block)
    requires bt != child && bt.buf != child.buf && bt.Valid() && child.Valid() && child.nrItems > 0
    requires 0 <= pos <= bt.nrItems && |child.items| == child.nrItems
    requires TotalSize(Item(child.items[child.nrItems - 1].key, Ref(child.bnr))) <= bt.availFree
    modifies bt, bt.buf
    ensures bt.Valid() && bt.bnr == old(bt.bnr) && bt.level == old(bt.level)
    ensures bt.items == SplitParent(old(bt.items), pos, child.items, child.bnr)
  {
    hide Laid, Ref, InsertRun, SameFrom;
    LaidBounds(bt.nrItems, bt.totalFree, bt.availFree, bt.buf[..], bt.items);
    var key := LastKey(child);
    bt.InsertItem(pos, key, Ref(child.bnr));
  }

  /** update_parent_key: the separator becomes the child's last key. */
  method UpdateParentKey(bt: Block, pos: int, child: Block)
    requires bt != child && bt.buf != child.buf && bt.Valid() && child.Valid() && child.nrItems > 0
    requires 0 <= pos < bt.nrItems == |bt.items| && |child.items| == child.nrItems
    requires |bt.items[pos].key| == |child.items[child.nrItems - 1].key|
    modifies bt, bt.buf
    ensures bt.Valid() && bt.nrItems == old(bt.nrItems)
    ensures bt.bnr == old(bt.bnr) && bt.level == old(bt.level)
    ensures bt.availFree == old(bt.availFree) && bt.totalFree == old(bt.totalFree)
    ensures bt.items == old(bt.items)[pos := Item(child.items[child.nrItems - 1].key, old(bt.items)[pos].val)]
  {
    hide Laid, Off, Encode, ParseItem, Splice, ItemIn;
    ghost var b0, it := bt.buf[..], bt.items[pos];
    LaidBounds(bt.nrItems, bt.totalFree, bt.availFree, b0, bt.items);
    var key := LastKey(child);
    var item := bt.ItemPtr(pos);
    KeyOverwritten(b0, item, it, key);
    bt.Put(item + ITEM_HEADER, key);
    ghost var b1 := bt.buf[..];
    ReplacedItem(bt.nrItems, bt.totalFree, bt.availFree, b0, bt.items, pos, Item(key, it.val), b1);
    bt.items := bt.items[pos := Item(key, it.val)];
    assert bt.buf[..] == b1;
  }

  /** update_parent_ref, storing the reference it builds rather than the child's last value. */
  method UpdateParentRef(bt: Block, pos: int, child: Block)
    requires bt != child && bt.Valid()
    requires 0 <= pos < bt.nrItems == |bt.items| && |bt.items[pos].val| == 8
    modifies bt, bt.buf
    ensures bt.Valid() && bt.nrItems == old(bt.nrItems)
    ensures bt.bnr == old(bt.bnr) && bt.level == old(bt.level)
    ensures bt.items == old(bt.items)[pos := Item(old(bt.items)[pos].key, Ref(child.bnr))]
  {
    hide Laid, Off, Encode, ParseItem, Splice, ItemIn, Ref;
    ghost var b0, it := bt.buf[..], bt.items[pos];
    LaidBounds(bt.nrItems, bt.totalFree, bt.availFree, b0, bt.items);
    var item := bt.ItemPtr(pos);
    var key, _, _ := bt.ReadItem(item);
    ValOverwritten(b0, item, it, Ref(child.bnr));
    bt.Put(item + ITEM_HEADER + |key|, Ref(child.bnr));
    ghost var b1 := bt.buf[..];
    ReplacedItem(bt.nrItems, bt.totalFree, bt.availFree, b0, bt.items, pos, Item(it.key, Ref(child.bnr)), b1);
    bt.items := bt.items[pos := Item(it.key, Ref(child.bnr))];
    assert bt.buf[..] == b1;
  }

  ghost predicate Separate(a: Block, b: Block, c: Block)
  {
    && a != b && b != c && a != c
    && a.buf != b.buf && b.buf != c.buf && a.buf != c.buf
  }

  lemma SplitFits(bt: seq<Item>)
    ensures MovedUse([], bt, true, false) <= Used(bt)
  {
    var n := MoveCount([], bt, true, false);
    assert bt[..|bt|] == bt;
    UsedPrefix(bt, n, |bt|);
  }

  /** The front run that a split moves is the shortest one that uses more than half. */
  lemma SplitHalves(bt: seq<Item>)
    requires bt != []
    ensures var n := MoveCount([], bt, true, false);
            && 0 < n <= |bt| && Used(bt[..n][..n - 1]) <= Used(bt) / 2
            && (bt[n..] != [] ==> Used(bt[..n]) > Used(bt) / 2)
  {
    hide Used;
    NoUse();
    MovesSomethingIff([], bt, true);
    UsedNonNegative(bt);
    TakeCountMeaning(bt, Target([], bt));
    var n := MoveCount([], bt, true, false);
    assert bt[..n][..n - 1] == bt[..n - 1];
  }

  /** What refill moves evens the two blocks out, or empties the sibling. */
  lemma RefillEvens(bt: seq<Item>, sib: seq<Item>, srcFirst: bool)
    requires AllInsertable(sib) && Used(sib) <= MAX_FREE && sib != [] && UsedPct(bt) <= MIN_USED_PCT
    ensures var n := MoveCount(bt, sib, srcFirst, Drains(bt, sib));
            Evened(bt, sib, RefilledBt(bt, sib, srcFirst, n), Kept(sib, srcFirst, n))
  {
    hide Used, UsedPct, AllInsertable;
    RefillFits(bt, sib, srcFirst);
    DrainFits(bt, sib);
    var n := MoveCount(bt, sib, srcFirst, Drains(bt, sib));
    JoinedUse(bt, Moved(sib, srcFirst, n), srcFirst);
  }

  lemma JoinedUse(items: seq<Item>, moved: seq<Item>, srcFirst: bool)
    ensures Used(Joined(items, moved, srcFirst)) == Used(items) + Used(moved)
  {
    UsedConcat(items, moved);
    UsedConcat(moved, items);
  }

  lemma NothingOrdered()
    ensures Ordered([])
  {
  }

  /** ngnfs_btree_split: the front half of bt moves into the empty sib, which gets a parent item
      before bt's.  The parent has room for that item (insert_item's BUG_ON). */
  method Split(parent: Block, btPos: int, bt: Block, sib: Block)
    requires Separate(parent, bt, sib)
    requires parent.Valid() && bt.Valid() && sib.Valid() && 0 <= btPos <= parent.nrItems
    requires sib.nrItems == 0 && bt.nrItems > 0 && |bt.items| == bt.nrItems
    requires TotalSize(Item(bt.items[MoveCount([], bt.items, true, false) - 1].key, Ref(sib.bnr))) <= parent.availFree
             || MoveCount([], bt.items, true, false) == 0
    modifies parent, parent.buf, bt, bt.buf, sib, sib.buf
    ensures parent.Valid() && bt.Valid() && sib.Valid()
    ensures bt.bnr == old(bt.bnr) && sib.bnr == old(sib.bnr)
    ensures var n := MoveCount([], old(bt.items), true, false);
            && 0 < n <= |old(bt.items)|
            && sib.items == old(bt.items)[..n] && bt.items == old(bt.items)[n..]
            && parent.items == SplitParent(old(parent.items), btPos, old(bt.items)[..n], sib.bnr)
    ensures bt.items != [] ==> Used(sib.items) > Used(old(bt.items)) / 2
    ensures sib.items != [] && Used(sib.items[..|sib.items| - 1]) <= Used(old(bt.items)) / 2
  {
    hide Laid, Off, SumSizes, MoveCount, MovedUse, InsertRun, Ref, Used, TotalSize, SameFrom, RemoveRun, Ordered;
    NothingOrdered();
    ghost var items := bt.items;
    LaidBounds(bt.nrItems, bt.totalFree, bt.availFree, bt.buf[..], bt.items);
    LaidBounds(sib.nrItems, sib.totalFree, sib.availFree, sib.buf[..], sib.items);
    assert sib.items == [];
    NoUse();
    TotalCountsHoles(bt.nrItems, bt.totalFree, bt.availFree, bt.buf[..], bt.items);
    SplitFits(items);
    MovesSomethingIff([], items, true);
    UsedNonNegative(items);
    ghost var n := MoveCount([], items, true, false);
    SplitHalves(items);
    MoveItems(sib, bt, true, false);
    assert [] + items[..n] == items[..n];
    LaidBounds(sib.nrItems, sib.totalFree, sib.availFree, sib.buf[..], sib.items);
    InsertParentItem(parent, btPos, sib);
  }

  /** ngnfs_btree_refill.  bt is at or under the minimum use, sib is a neighbour, parent keys all
      have the key sizes of the children and parent values are references. */
  method Refill(parent: Block, btPos: int, sibPos: int, bt: Block, sib: Block)
    requires Separate(parent, bt, sib)
    requires parent.Valid() && bt.Valid() && sib.Valid() && Ordered(bt.items)
    requires 0 <= btPos < parent.nrItems && 0 <= sibPos < parent.nrItems
    requires sibPos == btPos + 1 || sibPos == btPos - 1
    requires AllInsertable(sib.items) && sib.nrItems > 0 && UsedPct(bt.items) <= MIN_USED_PCT
    requires forall i, j :: 0 <= i < |parent.items| && 0 <= j < |bt.items| ==> |bt.items[j].key| == |parent.items[i].key|
    requires forall i, j :: 0 <= i < |parent.items| && 0 <= j < |sib.items| ==> |sib.items[j].key| == |parent.items[i].key|
    requires forall i :: 0 <= i < |parent.items| ==> |parent.items[i].val| == 8
    modifies parent, parent.buf, bt, bt.buf, sib, sib.buf
    ensures parent.Valid() && bt.Valid() && sib.Valid()
    ensures bt.bnr == old(bt.bnr) && sib.bnr == old(sib.bnr)
    ensures var n := MoveCount(old(bt.items), old(sib.items), btPos < sibPos, Drains(old(bt.items), old(sib.items)));
            && 0 < n <= |old(sib.items)|
            && bt.items == RefilledBt(old(bt.items), old(sib.items), btPos < sibPos, n) != []
            && sib.items == Kept(old(sib.items), btPos < sibPos, n)
    ensures (sib.nrItems == 0 <==> Drains(old(bt.items), old(sib.items)))
    ensures Evened(old(bt.items), old(sib.items), bt.items, sib.items)
    ensures |old(parent.items)| == old(parent.nrItems)
    ensures bt.items != [] && parent.items == RefillParent(old(parent.items), btPos, sibPos, bt.bnr, bt.items, sib.items)
  {
    hide Laid, Off, SumSizes, MoveCount, MovedUse, RemoveRun, Ref, Used, AllInsertable, SameFrom, Moved, Kept;
    hide Joined, Ordered, Evened;
    ghost var p0, b0, s0 := parent.items, bt.items, sib.items;
    LaidBounds(parent.nrItems, parent.totalFree, parent.availFree, parent.buf[..], p0);
    LaidBounds(bt.nrItems, bt.totalFree, bt.availFree, bt.buf[..], b0);
    LaidBounds(sib.nrItems, sib.totalFree, sib.availFree, sib.buf[..], s0);
    TotalCountsHoles(sib.nrItems, sib.totalFree, sib.availFree, sib.buf[..], s0);
    var srcFirst := sibPos > btPos;
    var drain := Pct(bt) + Pct(sib) <= MIN_USED_PCT * 2;
    RefillFits(b0, s0, srcFirst);
    RefillEvens(b0, s0, srcFirst);
    MoveItems(bt, sib, srcFirst, drain);
    ghost var n := MoveCount(b0, s0, srcFirst, drain);
    RefilledNonEmpty(b0, s0, srcFirst, n);
    LaidBounds(bt.nrItems, bt.totalFree, bt.availFree, bt.buf[..], bt.items);
    LaidBounds(sib.nrItems, sib.totalFree, sib.availFree, sib.buf[..], sib.items);
    LastKeySizes(p0, b0, s0, srcFirst, n);
    assert parent.Valid() && parent.items == p0;
    if sib.nrItems != 0 {
      if btPos < sibPos {
        UpdateParentKey(parent, btPos, bt);
      } else {
        UpdateParentKey(parent, sibPos, sib);
      }
    } else {
      if btPos < sibPos {
        UpdateParentRef(parent, sibPos, bt);
        parent.RemoveItem(btPos);
      } else {
        parent.RemoveItem(sibPos);
      }
    }
  }

  function Pct(bt: Block): int
    reads bt
  {
    (BLOCK_SIZE - (HEADER_SIZE + bt.totalFree)) * 100 / MAX_FREE
  }

  lemma LastKeySizes(parent: seq<Item>, bt: seq<Item>, sib: seq<Item>, srcFirst: bool, n: int)
    requires 0 < n <= |sib|
    requires forall i, j :: 0 <= i < |parent| && 0 <= j < |bt| ==> |bt[j].key| == |parent[i].key|
    requires forall i, j :: 0 <= i < |parent| && 0 <= j < |sib| ==> |sib[j].key| == |parent[i].key|
    ensures var b, s := RefilledBt(bt, sib, srcFirst, n), Kept(sib, srcFirst, n);
            && b != []
            && (forall i :: 0 <= i < |parent| ==> |b[|b| - 1].key| == |parent[i].key|)
            && (s != [] ==> forall i :: 0 <= i < |parent| ==> |s[|s| - 1].key| == |parent[i].key|)
  {
  }
}
