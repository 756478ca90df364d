/** The btree block as it sits in memory: a header and one byte array that holds both the
    item_off array and the item payloads, changed in place (shared/btree.c). */
module BtreeBlock {
  import opened Keys
  import opened Layout
  import opened Edits
  import opened ByteEdits

  /** `pos` is where `key` belongs among `items`. */
  ghost predicate Splits(items: seq<Item>, key: Key, pos: int)
  {
    && 0 <= pos <= |items|
    && (forall i :: 0 <= i < pos ==> KeyLess(items[i].key, key))
    && (forall i :: pos <= i < |items| ==> KeyLess(key, items[i].key))
  }

  const ENOENT: int := -2
  const EEXIST: int := -17
  const EINVAL: int := -22

  lemma AbsentKey(items: seq<Item>, key: Key, pos: int)
    requires Splits(items, key, pos)
    ensures forall i :: 0 <= i < |items| ==> items[i].key != key
  {
    CmpZeroIffEqual(key, key);
  }

  lemma ValBytes(buf: Image, off: int, it: Item)
    requires ItemIn(buf, off, it)
    ensures 0 <= off && off + Size(it) <= |buf|
    ensures forall j :: 0 <= j < |it.val| ==> buf[off + ITEM_HEADER + |it.key| + j] == it.val[j]
  {
    var s := buf[off..off + Size(it)];
    forall j | 0 <= j < |it.val|
      ensures buf[off + ITEM_HEADER + |it.key| + j] == it.val[j]
    {
      assert s[ITEM_HEADER + |it.key| + j] == Encode(it)[ITEM_HEADER + |it.key| + j];
    }
  }

  lemma OrderedInsert(items: seq<Item>, pos: int, it: Item)
    requires Ordered(items) && Splits(items, it.key, pos)
    ensures Ordered(InsertRun(items, pos, [it]))
  {
  }

  lemma InsertedOff(nr: int, b0: Image, pos: int, it: Item, off: int, i: int)
    requires |b0| == BLOCK_SIZE && 0 <= pos <= nr < SLOTS && Encodable(it)
    requires SlotPos(nr + 1) <= off && off + Size(it) <= BLOCK_SIZE
    requires 0 <= i <= nr
    ensures var b1 := MovedOffs(b0, pos + 1, pos, nr - pos);
            Off(Splice(WithOff(b1, pos, off), off, Encode(it)), i) ==
            if i < pos then Off(b0, i) else if i == pos then off else Off(b0, i - 1)
  {
    hide Encode, Off, MovedOffs, WithOff, Splice;
    var b1 := MovedOffs(b0, pos + 1, pos, nr - pos);
    MovedOffsAt(b0, pos + 1, pos, nr - pos, i);
    WithOffAt(b1, pos, off, i);
    PayloadWriteAt(WithOff(b1, pos, off), off, Encode(it), i);
  }

  lemma OrderedRemove(items: seq<Item>, pos: int, n: int)
    requires Ordered(items) && 0 <= pos && 0 <= n && pos + n <= |items|
    ensures Ordered(RemoveRun(items, pos, n))
  {
  }

  /** The three byte edits of insert_item amount to adding a run of one payload. */
  lemma InsertedRun(nr: int, end: int, b0: Image, pos: int, it: Item, b1: Image, b2: Image, b3: Image)
    requires |b0| == BLOCK_SIZE && 0 <= pos <= nr < SLOTS && Encodable(it)
    requires SlotPos(nr + 1) <= end - Size(it) && end <= BLOCK_SIZE
    requires b1 == MovedOffs(b0, pos + 1, pos, nr - pos)
    requires b2 == WithOff(b1, pos, end - Size(it))
    requires b3 == Splice(b2, end - Size(it), Encode(it))
    ensures RunAdded(nr, end, b0, b3, pos, [it])
  {
    hide Encode, Off, MovedOffs, WithOff, SumSizes, RunOff, SameFrom;
    var off := end - Size(it);
    forall i | 0 <= i < pos ensures Off(b3, i) == Off(b0, i) {
      InsertedOff(nr, b0, pos, it, off, i);
    }
    forall i | pos < i < nr + 1 ensures Off(b3, i) == Off(b0, i - 1) {
      InsertedOff(nr, b0, pos, it, off, i);
    }
    InsertedOff(nr, b0, pos, it, off, pos);
    assert Off(b3, pos + 0) == off;
    MovedOffsSame(b0, pos + 1, pos, nr - pos, end);
    WithOffSame(b1, pos, off, end);
    PayloadWriteSame(b2, off, Encode(it), end);
    SameFromTransitive(b0, b1, b2, end);
    SameFromTransitive(b0, b2, b3, end);
    SumOne(it);
    assert RunOff(end, [it], 0) == off;
  }

  lemma InsertedLayout(nr: int, total: int, avail: int, b0: Image, items: seq<Item>,
                       pos: int, it: Item, b1: Image, b2: Image, b3: Image)
    requires Laid(nr, total, avail, b0, items) && 0 <= pos <= nr && nr < SLOTS
    requires Encodable(it) && TotalSize(it) <= avail
    requires b1 == MovedOffs(b0, pos + 1, pos, nr - pos)
    requires b2 == WithOff(b1, pos, End(nr, avail) - Size(it))
    requires b3 == Splice(b2, End(nr, avail) - Size(it), Encode(it))
    ensures Laid(nr + 1, total - TotalSize(it), avail - TotalSize(it), b3,
                 InsertRun(items, pos, [it]))
    ensures SameFrom(b0, b3, End(nr, avail))
  {
    InsertedRun(nr, End(nr, avail), b0, pos, it, b1, b2, b3);
    SumOne(it);
    RunAddedKeepsLayout(nr, total, avail, b0, items, pos, [it], b3);
  }

  lemma WrittenItem(b0: Image, off: int, it: Item, b1: Image, b2: Image, b3: Image, b4: Image)
    requires |b0| == BLOCK_SIZE && Encodable(it) && 0 <= off && off + Size(it) <= BLOCK_SIZE
    requires b1 == b0[off + 2 := |it.key|]
    requires b2 == Splice(b1, off, [|it.val| % 256, |it.val| / 256])
    requires b3 == Splice(b2, off + ITEM_HEADER, it.key)
    requires b4 == Splice(b3, off + ITEM_HEADER + |it.key|, it.val)
    ensures b4 == Splice(b0, off, Encode(it))
  {
    hide Splice;
    var e := Encode(it);
    var r := Splice(b0, off, e);
    forall k | 0 <= k < BLOCK_SIZE ensures b4[k] == r[k] {
      if off + 3 <= k < off + 3 + |it.key| {
        assert e[k - off] == it.key[k - off - 3];
        assert b4[k] == b3[k];
      } else if off + 3 + |it.key| <= k < off + Size(it) {
        assert e[k - off] == it.val[k - off - 3 - |it.key|];
      } else {
        assert b4[k] == b3[k] == b2[k];
      }
    }
  }

  lemma SumOne(it: Item)
    ensures SumSizes([it]) == Size(it) && [it][..1] == [it]
    ensures forall end :: RunOff(end, [it], 0) == end - Size(it)
  {
    assert [it][1..] == [];
    assert [it][..0 + 1] == [it];
  }

  lemma RemovedRun(nr: int, end: int, b0: Image, pos: int, b1: Image, b2: Image)
    requires |b0| == BLOCK_SIZE && 0 <= pos < nr <= SLOTS
    requires SlotPos(nr) <= end
    requires b1 == MovedOffs(b0, pos, pos + 1, nr - pos - 1)
    requires b2 == WithOff(b1, nr - 1, 0)
    ensures RunRemoved(nr, end, b0, b2, pos, 1)
  {
    hide Off, MovedOffs, WithOff, SameFrom;
    forall i | 0 <= i < pos ensures Off(b2, i) == Off(b0, i) {
      MovedOffsAt(b0, pos, pos + 1, nr - pos - 1, i);
      WithOffAt(b1, nr - 1, 0, i);
    }
    forall i | pos <= i < nr - 1 ensures Off(b2, i) == Off(b0, i + 1) {
      MovedOffsAt(b0, pos, pos + 1, nr - pos - 1, i);
      WithOffAt(b1, nr - 1, 0, i);
    }
    MovedOffsSame(b0, pos, pos + 1, nr - pos - 1, end);
    WithOffSame(b1, nr - 1, 0, end);
    SameFromTransitive(b0, b1, b2, end);
  }

  /** Wherever remove_item leaves the end of the gap, no remaining payload is below it. */
  lemma RemovedBounds(nr: int, total: int, avail: int, b: Image, items: seq<Item>, pos: int, avail1: int)
    requires Laid(nr, total, avail, b, items) && 0 <= pos < nr
    requires avail1 == avail + if Off(b, pos) == End(nr, avail)
                               then TotalSize(items[pos]) else OFF_SIZE
    ensures End(nr - 1, avail1) <= BLOCK_SIZE
    ensures forall i :: 0 <= i < nr && i != pos ==> End(nr - 1, avail1) <= Off(b, i)
  {
    hide Laid, ItemIn, Off;
    LaidBounds(nr, total, avail, b, items);
    LaidItem(nr, total, avail, b, items, pos);
    forall i | 0 <= i < nr && i != pos ensures End(nr - 1, avail1) <= Off(b, i) {
      LaidItem(nr, total, avail, b, items, i);
      if i < pos {
        LaidApart(nr, total, avail, b, items, i, pos);
      } else {
        LaidApart(nr, total, avail, b, items, pos, i);
      }
    }
  }

  lemma RemovedLayout(nr: int, total: int, avail: int, b0: Image, items: seq<Item>, pos: int,
                      avail1: int, b1: Image, b2: Image)
    requires Laid(nr, total, avail, b0, items) && 0 <= pos < nr <= SLOTS
    requires avail1 == avail + if Off(b0, pos) == End(nr, avail)
                               then TotalSize(items[pos]) else OFF_SIZE
    requires b1 == MovedOffs(b0, pos, pos + 1, nr - pos - 1)
    requires b2 == WithOff(b1, nr - 1, 0)
    ensures Laid(nr - 1, total + TotalSize(items[pos]), avail1, b2, RemoveRun(items, pos, 1))
    ensures SameFrom(b0, b2, End(nr, avail))
  {
    hide MovedOffs, WithOff, Off, ItemIn, Placed;
    LaidBounds(nr, total, avail, b0, items);
    RemovedRun(nr, End(nr, avail), b0, pos, b1, b2);
    RemovedBounds(nr, total, avail, b0, items, pos, avail1);
    RunRemovedKeepsLayout(nr, total, avail, b0, items, pos, 1, b2, avail1);
    SumOne(items[pos]);
    assert items[pos..pos + 1] == [items[pos]];
  }

  class Block {
    var bnr: nat
    var nrItems: nat
    var totalFree: int
    var availFree: int
    var level: Byte
    /** item_off starts at byte 16; the first 16 bytes stand for the header fields above. */
    const buf: array<Byte>
    /** The items in item_off order. */
    ghost var items: seq<Item>

    ghost predicate Valid()
      reads this, buf
    {
      buf.Length == BLOCK_SIZE && Laid(nrItems, totalFree, availFree, buf[..], items)
    }

    constructor ()
      ensures fresh(buf) && buf.Length == BLOCK_SIZE
    {
      buf := new Byte[BLOCK_SIZE](_ => 0);
    }

    /** ngnfs_btree_init_block: the block's bytes are left as they were. */
    method InitBlock(lvl: Byte)
      requires buf.Length == BLOCK_SIZE
      modifies this
      ensures Valid() && items == [] && Ordered(items)
      ensures bnr == 0 && level == lvl && availFree == totalFree == MAX_FREE
    {
      bnr := 0;
      nrItems := 0;
      totalFree := MAX_FREE;
      availFree := totalFree;
      level := lvl;
      items := [];
    }

    // ---- byte-level helpers ----

    /** memcpy into the block from bytes outside of it. */
    method Put(pos: int, bs: seq<Byte>)
      requires buf.Length == BLOCK_SIZE && 0 <= pos && pos + |bs| <= BLOCK_SIZE
      modifies buf
      ensures buf[..] == Splice(old(buf[..]), pos, bs)
    {
      for i := 0 to |bs|
        invariant forall k :: 0 <= k < BLOCK_SIZE ==>
                    buf[k] == if pos <= k < pos + i then bs[k - pos] else old(buf[k])
      {
        buf[pos + i] := bs[i];
      }
    }

    /** memmove within the block: the source is read as it was before the call. */
    method Memmove(dst: int, src: int, n: int)
      requires buf.Length == BLOCK_SIZE && 0 <= n
      requires 0 <= dst && dst + n <= BLOCK_SIZE && 0 <= src && src + n <= BLOCK_SIZE
      modifies buf
      ensures buf[..] == Splice(old(buf[..]), dst, old(buf[src..src + n]))
    {
      if dst < src {
        for i := 0 to n
          invariant forall k :: 0 <= k < BLOCK_SIZE ==>
                      buf[k] == if dst <= k < dst + i then old(buf[k - dst + src]) else old(buf[k])
        {
          buf[dst + i] := buf[src + i];
        }
      } else {
        for i := n downto 0
          invariant forall k :: 0 <= k < BLOCK_SIZE ==>
                      buf[k] == if dst + i <= k < dst + n then old(buf[k - dst + src]) else old(buf[k])
        {
          buf[dst + i] := buf[src + i];
        }
      }
    }

    method SetItemOff(pos: int, off: int)
      requires buf.Length == BLOCK_SIZE && 0 <= pos < SLOTS && 0 <= off < 65536
      modifies buf
      ensures buf[..] == WithOff(old(buf[..]), pos, off)
    {
      Put(SlotPos(pos), OffBytes(off));
    }

    method GetItemOff(pos: int) returns (off: int)
      requires buf.Length == BLOCK_SIZE && 0 <= pos < SLOTS
      ensures off == Off(buf[..], pos)
    {
      off := Le16(buf[SlotPos(pos)], buf[SlotPos(pos) + 1]);
    }

    /** memmove_tail_offs: shift the offsets from slot `pos` on by `distance` slots. */
    method MemmoveTailOffs(pos: int, distance: int)
      requires buf.Length == BLOCK_SIZE && 0 <= pos && 0 <= pos + distance
      requires pos <= nrItems <= SLOTS && nrItems + distance <= SLOTS
      modifies buf
      ensures buf[..] == MovedOffs(old(buf[..]), pos + distance, pos, nrItems - pos)
    {
      var nr := nrItems - pos;
      if nr > 0 && distance != 0 {
        Memmove(SlotPos(pos + distance), SlotPos(pos),
                2 * nr);
      }
    }

    /** The sizes and key of the item whose payload starts at `off`. */
    method ReadItem(off: int) returns (key: Key, size: int, valSize: int)
      requires buf.Length == BLOCK_SIZE && Readable(buf[..], off)
      ensures key == ParseItem(buf[..], off).key
      ensures size == SizeAt(buf[..], off)
      ensures valSize == ValSizeAt(buf[..], off) == |ParseItem(buf[..], off).val|
    {
      var k := off + ITEM_HEADER;
      key := buf[k..k + buf[off + 2]];
      valSize := Le16(buf[off], buf[off + 1]);
      size := ITEM_HEADER + buf[off + 2] + valSize;
      assert key == buf[..][k..k + buf[off + 2]];
    }

    method ItemPtr(pos: int) returns (off: int)
      requires Valid() && 0 <= pos < nrItems
      ensures off == Off(buf[..], pos) && End(nrItems, availFree) <= off
      ensures ItemIn(buf[..], off, items[pos]) && Readable(buf[..], off)
      ensures ParseItem(buf[..], off) == items[pos] && SizeAt(buf[..], off) == Size(items[pos])
    {
      LaidItem(nrItems, totalFree, availFree, buf[..], items, pos);
      off := GetItemOff(pos);
      ItemInParses(buf[..], off, items[pos]);
    }

    /** item_ptr followed by item_size. */
    method ItemExtent(pos: int) returns (off: int, size: int)
      requires Valid() && 0 <= pos < nrItems
      ensures off == Off(buf[..], pos) && size == Size(items[pos])
    {
      off := ItemPtr(pos);
      var _, n, _ := ReadItem(off);
      size := n;
    }

    // ---- search ----

    /** btree_search: the equal item, or the one position that keeps the keys in order. */
    method Search(key: Key) returns (pos: int, cmp: int)
      requires Valid() && Ordered(items)
      ensures cmp == 0 ==> 0 <= pos < nrItems && items[pos].key == key
      ensures cmp != 0 ==> Splits(items, key, pos)
    {
      hide Laid, ItemIn, ParseItem, Off, CmpKeys, SizeAt, Readable;
      LaidBounds(nrItems, totalFree, availFree, buf[..], items);
      pos, cmp := 0, 1;
      var first, last := 0, nrItems as int - 1;
      while first <= last
        invariant 0 <= first <= last + 1 <= nrItems
        invariant forall i :: 0 <= i < first ==> KeyLess(items[i].key, key)
        invariant forall i :: last < i < nrItems ==> KeyLess(key, items[i].key)
        invariant cmp != 0
        invariant first > last ==> pos == first
        decreases last - first
      {
        pos := (first + last) / 2;
        var off := ItemPtr(pos);
        var k, _, _ := ReadItem(off);
        cmp := CmpKeys(key, k);
        CmpZeroIffEqual(key, k);
        CmpAntisymmetric(key, k);
        if cmp == 0 {
          break;
        } else if cmp < 0 {
          forall i | pos <= i < nrItems ensures KeyLess(key, items[i].key) {
            if pos < i {
              CmpTransitive(key, items[pos].key, items[i].key);
            }
          }
          last := pos - 1;
        } else {
          forall i | 0 <= i <= pos ensures KeyLess(items[i].key, key) {
            if i < pos {
              CmpTransitive(items[i].key, items[pos].key, key);
            }
          }
          pos := pos + 1;
          first := pos;
        }
      }
    }

    // ---- insert, delete, lookup ----

    /** The stores that insert_item makes into the item struct: key_size, val_size, key, val. */
    method WriteItem(off: int, it: Item)
      requires buf.Length == BLOCK_SIZE && Encodable(it)
      requires 0 <= off && off + Size(it) <= BLOCK_SIZE
      modifies buf
      ensures buf[..] == Splice(old(buf[..]), off, Encode(it))
    {
      ghost var b0 := buf[..];
      buf[off + 2] := |it.key|;
      ghost var b1 := buf[..];
      Put(off, [|it.val| % 256, |it.val| / 256]);
      ghost var b2 := buf[..];
      Put(off + ITEM_HEADER, it.key);
      ghost var b3 := buf[..];
      Put(off + ITEM_HEADER + |it.key|, it.val);
      WrittenItem(b0, off, it, b1, b2, b3, buf[..]);
    }

    /** Make room in the offset array at `pos` and point it at `off`. */
    method OpenSlot(pos: int, off: int)
      requires buf.Length == BLOCK_SIZE && 0 <= pos <= nrItems < SLOTS && 0 <= off < 65536
      modifies buf
      ensures buf[..] == WithOff(MovedOffs(old(buf[..]), pos + 1, pos, nrItems - pos), pos, off)
    {
      hide Splice, MovedOffs, WithOff;
      MemmoveTailOffs(pos, 1);
      SetItemOff(pos, off);
    }

    /** Close the offset array over `pos` and zero its last element. */
    method CloseSlot(pos: int)
      requires buf.Length == BLOCK_SIZE && 0 <= pos < nrItems <= SLOTS
      modifies buf
      ensures buf[..] == WithOff(MovedOffs(old(buf[..]), pos, pos + 1, nrItems - pos - 1), nrItems - 1, 0)
    {
      hide Splice, MovedOffs, WithOff;
      MemmoveTailOffs(pos + 1, -1);
      SetItemOff(nrItems - 1, 0);
    }

    /** insert_item: callers have made sure that the gap holds the item (the BUG_ONs). */
    method InsertItem(pos: int, key: Key, val: seq<Byte>)
      requires Valid() && 0 <= pos <= nrItems
      requires Encodable(Item(key, val)) && TotalSize(Item(key, val)) <= availFree
      modifies this, buf
      ensures bnr == old(bnr) && level == old(level)
      ensures Valid() && items == InsertRun(old(items), pos, [Item(key, val)])
      ensures totalFree == old(totalFree) - TotalSize(Item(key, val))
      ensures availFree == old(availFree) - TotalSize(Item(key, val))
      ensures SameFrom(old(buf[..]), buf[..], old(End(nrItems, availFree)))
    {
      hide Laid, Splice, MovedOffs, WithOff, SameFrom, Off, Encode, InsertRun;
      ghost var b0, nr, avail := buf[..], nrItems, availFree;
      LaidBounds(nr, totalFree, avail, b0, items);
      var size := ITEM_HEADER + |key| + |val|;
      var off := SlotPos(nrItems) + availFree - size;
      OpenSlot(pos, off);
      ghost var b1, b2 := MovedOffs(b0, pos + 1, pos, nr - pos), buf[..];
      assert b2 == WithOff(b1, pos, off);
      nrItems := nrItems + 1;
      totalFree := totalFree - (OFF_SIZE + size);
      availFree := availFree - (OFF_SIZE + size);
      var at := GetItemOff(pos);
      assert buf[..] == b2;
      WithOffAt(b1, pos, off, pos);
      WriteItem(at, Item(key, val));
      ghost var b3 := buf[..];
      InsertedLayout(nr, old(totalFree), avail, b0, items, pos, Item(key, val), b1, b2, b3);
      items := InsertRun(items, pos, [Item(key, val)]);
      assert buf[..] == b3;
    }

    /** remove_item.  The freed payload joins the gap only when it borders it. */
    method RemoveItem(pos: int)
      requires Valid() && 0 <= pos < nrItems
      modifies this, buf
      ensures bnr == old(bnr) && level == old(level)
      ensures Valid() && items == RemoveRun(old(items), pos, 1)
      ensures totalFree == old(totalFree) + TotalSize(old(items[pos]))
      ensures availFree == old(availFree) +
              if old(Off(buf[..], pos)) == old(End(nrItems, availFree))
              then TotalSize(old(items[pos])) else OFF_SIZE
      ensures SameFrom(old(buf[..]), buf[..], old(End(nrItems, availFree)))
    {
      hide Laid, Splice, MovedOffs, WithOff, SameFrom, Off, ItemIn, RemoveRun;
      ghost var b0, nr, avail := buf[..], nrItems, availFree;
      LaidBounds(nr, totalFree, avail, b0, items);
      var off, size := ItemExtent(pos);
      var tot := OFF_SIZE + size;
      totalFree := totalFree + tot;
      if off == SlotPos(nrItems) + availFree {
        availFree := availFree + tot;
      } else {
        availFree := availFree + OFF_SIZE;
      }
      CloseSlot(pos);
      ghost var b1, b2 := MovedOffs(b0, pos, pos + 1, nr - pos - 1), buf[..];
      RemovedLayout(nr, old(totalFree), avail, b0, items, pos, availFree, b1, b2);
      nrItems := nrItems - 1;
      items := RemoveRun(items, pos, 1);
      assert buf[..] == b2;
    }

    /** ngnfs_btree_lookup: copy as much of the value as the caller's buffer holds. */
    method Lookup(key: Key, val: array<Byte>) returns (ret: int)
      requires Valid() && Ordered(items) && val != buf
      modifies val
      ensures ret == -2 <==> forall i :: 0 <= i < nrItems ==> items[i].key != key
      ensures ret != -2 ==>
        exists i :: 0 <= i < nrItems && items[i].key == key &&
                    ret == Min(val.Length, |items[i].val|) && val[..ret] == items[i].val[..ret]
      ensures ret == -2 ==> val[..] == old(val[..])
      ensures ret != -2 ==> val[ret..] == old(val[ret..])
    {
      hide Laid, ItemIn, Encode, ParseItem, Off;
      LaidBounds(nrItems, totalFree, availFree, buf[..], items);
      var pos, cmp := Search(key);
      if cmp == 0 {
        var off := ItemPtr(pos);
        var k, _, valSize := ReadItem(off);
        ret := Min(val.Length, valSize);
        ghost var v := items[pos].val;
        ghost var b := buf[..];
        ValBytes(b, off, items[pos]);
        for i := 0 to ret
          invariant buf[..] == b
          invariant forall j :: 0 <= j < i ==> val[j] == v[j]
          invariant forall j :: i <= j < val.Length ==> val[j] == old(val[j])
        {
          val[i] := buf[off + ITEM_HEADER + |k| + i];
        }
        assert val[..ret] == items[pos].val[..ret];
      } else {
        ret := ENOENT;
        AbsentKey(items, key, pos);
      }
    }

    /** ngnfs_btree_insert.  A caller that inserts a new key has made room for it. */
    method Insert(key: Key, val: seq<Byte>) returns (ret: int)
      requires Valid() && Ordered(items)
      requires Insertable(Item(key, val)) && (forall i :: 0 <= i < nrItems ==> items[i].key != key)
               ==> TotalSize(Item(key, val)) <= availFree
      modifies this, buf
      ensures bnr == old(bnr) && level == old(level)
      ensures Valid() && Ordered(items)
      ensures ret == -22 <==> |key| == 0 || |key| > 255 || |val| > 512
      ensures ret == -17 <==> ret != -22 && exists i :: 0 <= i < |old(items)| && old(items)[i].key == key
      ensures ret in {0, -22, -17}
      ensures ret != 0 ==> items == old(items) && buf[..] == old(buf[..])
      ensures ret == 0 ==>
        exists pos :: Splits(old(items), key, pos) &&
                      items == InsertRun(old(items), pos, [Item(key, val)])
      ensures SameFrom(old(buf[..]), buf[..], old(End(nrItems, availFree)))
    {
      hide Laid, Ordered, Off, InsertRun;
      LaidBounds(nrItems, totalFree, availFree, buf[..], items);
      if |key| == 0 || |key| > KEY_MAX || |val| > VAL_MAX {
        return EINVAL;
      }
      var pos, cmp := Search(key);
      if cmp == 0 {
        ret := EEXIST;
      } else {
        AbsentKey(items, key, pos);
        OrderedInsert(items, pos, Item(key, val));
        InsertItem(pos, key, val);
        ret := 0;
      }
    }

    /** ngnfs_btree_delete. */
    method Delete(key: Key) returns (ret: int)
      requires Valid() && Ordered(items)
      modifies this, buf
      ensures bnr == old(bnr) && level == old(level)
      ensures Valid() && Ordered(items)
      ensures ret in {0, -2}
      ensures ret == -2 <==> forall i :: 0 <= i < |old(items)| ==> old(items)[i].key != key
      ensures ret == -2 ==> items == old(items) && buf[..] == old(buf[..])
      ensures ret == 0 ==>
        exists pos :: 0 <= pos < |old(items)| && old(items)[pos].key == key &&
                      items == RemoveRun(old(items), pos, 1)
      ensures SameFrom(old(buf[..]), buf[..], old(End(nrItems, availFree)))
    {
      hide Laid, Ordered, KeyLess, Off, RemoveRun;
      LaidBounds(nrItems, totalFree, availFree, buf[..], items);
      var pos, cmp := Search(key);
      if cmp == 0 {
        OrderedRemove(items, pos, 1);
        RemoveItem(pos);
        ret := 0;
      } else {
        AbsentKey(items, key, pos);
        ret := ENOENT;
      }
    }
  }
}
