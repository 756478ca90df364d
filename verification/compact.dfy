/** Compacting a block: squeeze the payloads against the end of the block
    (shared/btree.c:511-574). */
module Compacting {
  import opened Keys
  import opened Layout
  import opened Edits
  import opened ByteEdits
  import opened Sorting
  import opened BtreeBlock

  /** The key of the payload at `off`; total, so that it can order any offsets. */
  function KeyAt(b: Image, off: int): Key
  {
    if Readable(b, off) then ParseItem(b, off).key else []
  }

  function ItemAt(b: Image, off: int): Item
  {
    if Readable(b, off) then ParseItem(b, off) else Item([], [])
  }

  /** cmp_item_off, ascending as compact and verify need it. */
  function OffLess(): (int, int) -> bool
  {
    (x: int, y: int) => x < y
  }

  /** cmp_item_key. */
  function OffKeyLess(b: Image): (int, int) -> bool
  {
    (x: int, y: int) => CmpKeys(KeyAt(b, x), KeyAt(b, y)) < 0
  }

  lemma OffKeyLessIsWeak(b: Image)
    ensures StrictWeak(OffKeyLess(b))
  {
    var less := OffKeyLess(b);
    forall x, y | less(x, y) ensures !less(y, x) {
      CmpAntisymmetric(KeyAt(b, x), KeyAt(b, y));
    }
    forall x, y, z | less(x, y) ensures less(x, z) || less(z, y) {
      var kx, ky, kz := KeyAt(b, x), KeyAt(b, y), KeyAt(b, z);
      CmpIsStrictTotalOrder(kx, kz, kx);
      CmpIsStrictTotalOrder(kz, ky, kx);
      CmpIsStrictTotalOrder(kz, kx, ky);
    }
  }

  function ItemsAt(b: Image, offs: seq<int>): (s: seq<Item>)
    ensures |s| == |offs|
    ensures forall i :: 0 <= i < |offs| ==> s[i] == ItemAt(b, offs[i])
  {
    Map((o: int) => ItemAt(b, o), offs)
  }

  lemma {:induction false} SumSizesPermutation(a: seq<Item>, b: seq<Item>)
    requires multiset(a) == multiset(b)
    ensures SumSizes(a) == SumSizes(b)
    decreases |a|
  {
    if a == [] {
      assert |multiset(b)| == 0;
      assert b == [];
    } else {
      var j, rest := CancelOne(a, b);
      SumSizesPermutation(a[1..], rest);
      SumConcat(b[..j], b[j + 1..]);
      var u := [a[0]] + b[j + 1..];
      assert u[1..] == b[j + 1..];
      SumConcat(b[..j], u);
    }
  }

  /** Items in key order are determined by which items there are. */
  lemma {:induction false} UniqueOrder(a: seq<Item>, b: seq<Item>)
    requires multiset(a) == multiset(b) && Ordered(a) && Ordered(b)
    ensures a == b
    decreases |a|
  {
    if a == [] {
      assert |multiset(b)| == 0;
    } else {
      var j, rest := CancelOne(a, b);
      if j > 0 {
        assert KeyLess(b[0].key, b[j].key);
        assert b[0] in multiset(a);
        var k :| 0 <= k < |a| && a[k] == b[0];
        CmpIsStrictTotalOrder(a[0].key, a[k].key, a[0].key);
      }
      assert j == 0;
      assert rest == b[1..];
      UniqueOrder(a[1..], b[1..]);
    }
  }

  /** Sorting by key orders distinct keys strictly. */
  lemma SortedIsOrdered(s: seq<Item>, items: seq<Item>)
    requires multiset(s) == multiset(items) && Ordered(items)
    requires forall i, j :: 0 <= i < j < |s| ==> !KeyLess(s[j].key, s[i].key)
    ensures Ordered(s)
  {
    forall i, j | 0 <= i < j < |items| ensures items[i] != items[j] {
      CmpZeroIffEqual(items[i].key, items[i].key);
      assert KeyLess(items[i].key, items[j].key);
    }
    assert Distinct(items);
    PermutationDistinct(items, s);
    PermutationMembers(items, s);
    forall i, j | 0 <= i < j < |s| ensures KeyLess(s[i].key, s[j].key) {
      assert s[i] in items && s[j] in items;
      var x :| 0 <= x < |items| && items[x] == s[i];
      var y :| 0 <= y < |items| && items[y] == s[j];
      CmpIsStrictTotalOrder(s[i].key, s[j].key, s[i].key);
    }
  }

  // ---- sorting the offset array keeps the layout ----

  lemma LaidItemAt(nr: int, total: int, avail: int, b: Image, items: seq<Item>)
    requires Laid(nr, total, avail, b, items)
    ensures 0 <= nr <= SLOTS && |b| == BLOCK_SIZE
    ensures ItemsAt(b, Offs(b, nr)) == items
    ensures Distinct(Offs(b, nr))
    ensures forall o :: o in Offs(b, nr) ==> SlotPos(nr) <= End(nr, avail) <= o
  {
    hide Laid, ItemIn, Off, ParseItem;
    LaidBounds(nr, total, avail, b, items);
    var o := Offs(b, nr);
    forall i | 0 <= i < nr ensures ItemAt(b, o[i]) == items[i] && End(nr, avail) <= o[i] {
      LaidItem(nr, total, avail, b, items, i);
      ItemInParses(b, o[i], items[i]);
    }
    forall i, j | 0 <= i < j < nr ensures o[i] != o[j] {
      LaidApart(nr, total, avail, b, items, i, j);
    }
    assert ItemsAt(b, o) == items;
  }

  lemma LaidMember(nr: int, total: int, avail: int, b: Image, items: seq<Item>, o: int) returns (i: int)
    requires Laid(nr, total, avail, b, items) && 0 <= nr <= SLOTS && o in Offs(b, nr)
    ensures 0 <= i < nr && Off(b, i) == o && items[i] == ItemAt(b, o) && ItemIn(b, o, items[i])
    ensures End(nr, avail) <= o
  {
    hide Laid, ItemIn, Off, ParseItem;
    LaidBounds(nr, total, avail, b, items);
    i :| 0 <= i < nr && Offs(b, nr)[i] == o;
    LaidItem(nr, total, avail, b, items, i);
    ItemInParses(b, o, items[i]);
  }

  lemma SortedMemberPlaced(nr: int, total: int, avail: int, b: Image, items: seq<Item>, b1: Image, o: int)
    requires Laid(nr, total, avail, b, items) && 0 <= nr <= SLOTS && o in Offs(b, nr)
    requires SameFrom(b, b1, SlotPos(nr))
    ensures ItemAt(b1, o) == ItemAt(b, o) && ItemIn(b1, o, ItemAt(b, o)) && End(nr, avail) <= o
  {
    hide Laid, ItemIn, Off, ParseItem, SameFrom;
    LaidBounds(nr, total, avail, b, items);
    var i := LaidMember(nr, total, avail, b, items, o);
    ItemStays(b, b1, SlotPos(nr), o, items[i]);
    ItemInParses(b1, o, items[i]);
  }

  lemma SortedMembersApart(nr: int, total: int, avail: int, b: Image, items: seq<Item>, o: int, p: int)
    requires Laid(nr, total, avail, b, items) && 0 <= nr <= SLOTS
    requires o in Offs(b, nr) && p in Offs(b, nr) && o != p
    ensures Apart(o, Size(ItemAt(b, o)), p, Size(ItemAt(b, p)))
  {
    hide Laid, ItemIn, Off, ParseItem;
    var i := LaidMember(nr, total, avail, b, items, o);
    var j := LaidMember(nr, total, avail, b, items, p);
    if i < j {
      LaidApart(nr, total, avail, b, items, i, j);
    } else {
      LaidApart(nr, total, avail, b, items, j, i);
    }
  }

  /** Permuting the offset array permutes the items and changes nothing else. */
  lemma PermutedLayout(nr: int, total: int, avail: int, b: Image, items: seq<Item>, b1: Image)
    requires Laid(nr, total, avail, b, items)
    requires |b1| == BLOCK_SIZE && 0 <= nr <= SLOTS
    requires SameFrom(b, b1, SlotPos(nr))
    requires multiset(Offs(b1, nr)) == multiset(Offs(b, nr))
    ensures Laid(nr, total, avail, b1, ItemsAt(b1, Offs(b1, nr)))
    ensures multiset(ItemsAt(b1, Offs(b1, nr))) == multiset(items)
  {
    hide ItemIn, Off, ParseItem, Size, SameFrom, Apart;
    LaidItemAt(nr, total, avail, b, items);
    var o, p := Offs(b, nr), Offs(b1, nr);
    var s := ItemsAt(b1, p);
    PermutationMembers(o, p);
    PermutationDistinct(o, p);
    forall i | 0 <= i < nr ensures End(nr, avail) <= p[i] && ItemIn(b1, p[i], s[i]) && s[i] == ItemAt(b, p[i]) {
      assert p[i] in p;
      SortedMemberPlaced(nr, total, avail, b, items, b1, p[i]);
    }
    forall i, j | 0 <= i < j < nr ensures Apart(p[i], Size(s[i]), p[j], Size(s[j])) {
      assert p[i] in p && p[j] in p;
      SortedMembersApart(nr, total, avail, b, items, p[i], p[j]);
    }
    assert Placed(b1, End(nr, avail), p, s);
    MapPermutation((x: int) => ItemAt(b, x), o, p);
    assert s == Map((x: int) => ItemAt(b, x), p);
    PermutationMembers(s, items);
    SumSizesPermutation(s, items);
  }

  // ---- squeezing: payloads taken highest offset first move up against the block end ----

  /** The start of payload j once payloads j.. are packed against the end of the block. */
  function Dest(its: seq<Item>, j: int): int
    requires 0 <= j <= |its|
  {
    BLOCK_SIZE - SumSizes(its[j..])
  }

  lemma DestStep(its: seq<Item>, j: int)
    requires 0 <= j < |its|
    ensures Dest(its, j) == Dest(its, j + 1) - Size(its[j])
  {
    assert its[j..][1..] == its[j + 1..];
  }

  lemma {:induction false} DestMonotone(its: seq<Item>, i: int, j: int)
    requires 0 <= i <= j <= |its|
    ensures Dest(its, i) <= Dest(its, j)
    ensures i < j ==> Dest(its, i) + Size(its[i]) <= Dest(its, j)
    decreases j - i
  {
    if i < j {
      DestStep(its, i);
      DestMonotone(its, i + 1, j);
    }
  }

  /** A layout whose offsets ascend: payloads lie in array order. */
  ghost predicate Ascending(b: Image, nr: int, its: seq<Item>)
    requires |b| == BLOCK_SIZE && 0 <= nr == |its| <= SLOTS
  {
    && (forall i, j :: 0 <= i < j < nr ==> Off(b, i) + Size(its[i]) <= Off(b, j))
    && (forall i :: 0 <= i < nr ==> Off(b, i) + Size(its[i]) <= BLOCK_SIZE)
  }

  lemma SortedAscends(nr: int, total: int, avail: int, b: Image, its: seq<Item>)
    requires Laid(nr, total, avail, b, its) && 0 <= nr == |its| <= SLOTS && |b| == BLOCK_SIZE
    requires SortedBy(OffLess(), Offs(b, nr))
    ensures Ascending(b, nr, its)
  {
    hide Laid, ItemIn, Off;
    var o := Offs(b, nr);
    forall i, j | 0 <= i < j < nr ensures Off(b, i) + Size(its[i]) <= Off(b, j) {
      LaidApart(nr, total, avail, b, its, i, j);
      assert !OffLess()(o[j], o[i]);
    }
    forall i | 0 <= i < nr ensures Off(b, i) + Size(its[i]) <= BLOCK_SIZE {
      LaidItem(nr, total, avail, b, its, i);
    }
  }

  /** A payload only ever moves up, and no payload below it reaches into where it goes:
      memmove taken highest offset first never overwrites a payload not yet moved. */
  lemma {:induction false} MovesUpSafely(b: Image, nr: int, its: seq<Item>, i: int)
    requires |b| == BLOCK_SIZE && 0 <= nr == |its| <= SLOTS && Ascending(b, nr, its)
    requires 0 <= i < nr
    ensures Off(b, i) <= Dest(its, i)
    ensures forall j :: 0 <= j < i ==> Off(b, j) + Size(its[j]) <= Dest(its, i)
    decreases nr - i
  {
    hide Off, SumSizes, Size;
    DestStep(its, i);
    if i + 1 < nr {
      MovesUpSafely(b, nr, its, i + 1);
    } else {
      LastDest(its);
    }
  }

  lemma LastDest(its: seq<Item>)
    ensures Dest(its, |its|) == BLOCK_SIZE
  {
  }

  /** Payloads i.. have been moved to their destination; everything below is untouched. */
  ghost predicate Squeezing(nr: int, b1: Image, its: seq<Item>, b: Image, i: int)
    requires |b1| == |b| == BLOCK_SIZE && 0 <= i <= nr == |its| <= SLOTS
  {
    && (forall k :: SlotPos(nr) <= k < Dest(its, i) && k < BLOCK_SIZE ==> b[k] == b1[k])
    && (forall j :: 0 <= j < i ==> Off(b, j) == Off(b1, j))
    && (forall j :: i <= j < nr ==> Off(b, j) == Dest(its, j) && ItemIn(b, Dest(its, j), its[j]))
  }

  /** One turn of the loop at slot x. */
  function Squeezed(b: Image, x: int, from: int, to: int, size: int): (r: Image)
    requires |b| == BLOCK_SIZE && 0 <= x < SLOTS && 0 <= from && 0 <= to && 0 <= size
    requires from + size <= BLOCK_SIZE && to + size <= BLOCK_SIZE
    ensures |r| == BLOCK_SIZE
  {
    if from == to then b
    else
      var c := WithOff(b, x, to);
      Splice(c, to, c[from..from + size])
  }

  lemma SqueezedMeaning(b: Image, nr: int, x: int, from: int, to: int, it: Item)
    requires |b| == BLOCK_SIZE && 0 <= x < nr <= SLOTS
    requires SlotPos(nr) <= from <= to && to + Size(it) <= BLOCK_SIZE
    requires ItemIn(b, from, it) && Off(b, x) == from
    ensures var r := Squeezed(b, x, from, to, Size(it));
            && (forall j :: 0 <= j < nr ==> Off(r, j) == if j == x then to else Off(b, j))
            && (forall k :: SlotPos(nr) <= k < to ==> r[k] == b[k])
            && SameFrom(b, r, to + Size(it))
            && ItemIn(r, to, it)
  {
    hide Encode, Off;
    var r := Squeezed(b, x, from, to, Size(it));
    if from != to {
      var c := WithOff(b, x, to);
      WithOffSame(b, x, to, SlotPos(nr));
      assert c[from..from + Size(it)] == b[from..from + Size(it)];
      PayloadWriteSame(c, to, c[from..from + Size(it)], to + Size(it));
      forall j | 0 <= j < nr ensures Off(r, j) == if j == x then to else Off(b, j) {
        WithOffAt(b, x, to, j);
        PayloadWriteAt(c, to, c[from..from + Size(it)], j);
      }
    }
  }

  lemma SqueezeSource(nr: int, b1: Image, its: seq<Item>, b: Image, x: int)
    requires |b1| == |b| == BLOCK_SIZE && 0 <= x < nr == |its| <= SLOTS
    requires Squeezing(nr, b1, its, b, x + 1) && Off(b1, x) <= Dest(its, x)
    requires SlotPos(nr) <= Off(b1, x) && ItemIn(b1, Off(b1, x), its[x])
    ensures Off(b, x) == Off(b1, x) && ItemIn(b, Off(b, x), its[x])
    ensures Off(b, x) <= Dest(its, x) && Dest(its, x) + Size(its[x]) == Dest(its, x + 1) <= BLOCK_SIZE
  {
    hide Encode, SumSizes, Off;
    DestStep(its, x);
    DestMonotone(its, x + 1, nr);
    LastDest(its);
    var o := Off(b1, x);
    assert b[o..o + Size(its[x])] == b1[o..o + Size(its[x])];
  }

  /** Payloads that only move up are moved safely in this order, wherever they lie. */
  lemma SqueezeStep(nr: int, b1: Image, its: seq<Item>, b: Image, x: int)
    requires |b1| == |b| == BLOCK_SIZE && 0 <= x < nr == |its| <= SLOTS
    requires Squeezing(nr, b1, its, b, x + 1) && Off(b1, x) <= Dest(its, x)
    requires SlotPos(nr) <= Off(b1, x) && ItemIn(b1, Off(b1, x), its[x])
    requires Dest(its, x) + Size(its[x]) <= BLOCK_SIZE && 0 <= Dest(its, x)
    ensures Off(b, x) + Size(its[x]) <= BLOCK_SIZE
    ensures Squeezing(nr, b1, its, Squeezed(b, x, Off(b, x), Dest(its, x), Size(its[x])), x)
  {
    hide ItemIn, SumSizes, Off, Squeezed, Dest, SameFrom;
    SqueezeSource(nr, b1, its, b, x);
    SqueezedMeaning(b, nr, x, Off(b, x), Dest(its, x), its[x]);
    var r := Squeezed(b, x, Off(b, x), Dest(its, x), Size(its[x]));
    forall j | x <= j < nr ensures Off(r, j) == Dest(its, j) && ItemIn(r, Dest(its, j), its[j]) {
      if x < j {
        DestMonotone(its, x, j);
        ItemStays(b, r, Dest(its, x) + Size(its[x]), Dest(its, j), its[j]);
      }
    }
  }

  /** All payloads at their destination: the block is laid out with no hole. */
  lemma SqueezedLayout(nr: int, total: int, avail: int, b1: Image, its: seq<Item>, b: Image)
    requires Laid(nr, total, avail, b1, its)
    requires |b1| == |b| == BLOCK_SIZE && 0 <= nr == |its| <= SLOTS
    requires Squeezing(nr, b1, its, b, 0)
    ensures Laid(nr, total, total, b, its)
  {
    hide ItemIn, Off, Size, SumSizes;
    TotalCountsHoles(nr, total, avail, b1, its);
    var o := Offs(b, nr);
    assert its[0..] == its;
    assert End(nr, total) == Dest(its, 0);
    forall i | 0 <= i < nr ensures End(nr, total) <= o[i] && ItemIn(b, o[i], its[i]) {
      DestMonotone(its, 0, i);
    }
    forall i, j | 0 <= i < j < nr ensures Apart(o[i], Size(its[i]), o[j], Size(its[j])) {
      DestMonotone(its, i, j);
    }
    assert Placed(b, End(nr, total), o, its);
  }

  // ---- the code ----

  lemma SortedOffsFit(less: (int, int) -> bool, o: seq<int>)
    requires forall i :: 0 <= i < |o| ==> 0 <= o[i] < 65536
    ensures forall i :: 0 <= i < |o| ==> 0 <= Sort(less, o)[i] < 65536
  {
    var s := Sort(less, o);
    PermutationMembers(s, o);
    forall i | 0 <= i < |o| ensures 0 <= s[i] < 65536 {
      assert s[i] in o;
    }
  }

  /** sort_r over the first nr elements of item_off. */
  method SortOffs(bt: Block, less: (int, int) -> bool)
    requires bt.buf.Length == BLOCK_SIZE && bt.nrItems <= SLOTS
    modifies bt.buf
    ensures Offs(bt.buf[..], bt.nrItems) == Sort(less, old(Offs(bt.buf[..], bt.nrItems)))
    ensures SameFrom(old(bt.buf[..]), bt.buf[..], SlotPos(bt.nrItems))
  {
    hide Off, WithOff, Sort, SameFrom;
    ghost var b0 := bt.buf[..];
    var nr := bt.nrItems;
    var s := Sort(less, Offs(bt.buf[..], nr));
    SortedOffsFit(less, Offs(b0, nr));
    assert SameFrom(b0, b0, SlotPos(nr)) by { SameFromReflexive(b0, SlotPos(nr)); }
    for i := 0 to nr
      invariant forall j :: 0 <= j < i ==> Off(bt.buf[..], j) == s[j]
      invariant SameFrom(b0, bt.buf[..], SlotPos(nr))
    {
      ghost var b := bt.buf[..];
      bt.SetItemOff(i, s[i]);
      forall j | 0 <= j < i + 1 ensures Off(bt.buf[..], j) == s[j] {
        WithOffAt(b, i, s[i], j);
      }
      WithOffSame(b, i, s[i], SlotPos(nr));
      SameFromTransitive(b0, b, bt.buf[..], SlotPos(nr));
    }
    assert Offs(bt.buf[..], nr) == s;
  }

  lemma SameFromReflexive(b: Image, lo: int)
    ensures SameFrom(b, b, lo)
  {
  }

  /** The loop of ngnfs_btree_compact, with the index as a signed integer so that it ends. */
  method Squeeze(bt: Block, ghost its: seq<Item>)
    requires bt.buf.Length == BLOCK_SIZE && bt.nrItems == |its| <= SLOTS
    requires Laid(bt.nrItems, bt.totalFree, bt.availFree, bt.buf[..], its)
    requires Ascending(bt.buf[..], bt.nrItems, its)
    modifies bt.buf
    ensures Squeezing(bt.nrItems, old(bt.buf[..]), its, bt.buf[..], 0)
  {
    hide Laid, Off, SumSizes, ItemIn, Squeezing, Squeezed, Ascending, Dest, Splice, WithOff, ParseItem, SizeAt;
    ghost var b1, nr := bt.buf[..], bt.nrItems;
    SqueezingStarts(nr, b1, its);
    var off := BLOCK_SIZE;
    var i := bt.nrItems as int - 1;
    while i >= 0
      invariant -1 <= i < nr
      invariant off == Dest(its, i + 1)
      invariant Squeezing(nr, b1, its, bt.buf[..], i + 1)
    {
      ghost var b := bt.buf[..];
      MovesUpSafely(b1, nr, its, i);
      SqueezeReady(nr, bt.totalFree, bt.availFree, b1, its, b, i);
      SqueezeStep(nr, b1, its, b, i);
      var item := bt.GetItemOff(i);
      var _, size, _ := bt.ReadItem(item);
      off := off - size;
      if item != off {
        bt.SetItemOff(i, off);
        bt.Memmove(off, item, size);
      }
      SqueezedIs(b, i, item, off, size, bt.buf[..]);
      i := i - 1;
    }
  }

  lemma SqueezingStarts(nr: int, b1: Image, its: seq<Item>)
    requires |b1| == BLOCK_SIZE && 0 <= nr == |its| <= SLOTS
    ensures Squeezing(nr, b1, its, b1, nr) && Dest(its, nr) == BLOCK_SIZE
  {
  }

  lemma SqueezeReady(nr: int, total: int, avail: int, b1: Image, its: seq<Item>, b: Image, x: int)
    requires Laid(nr, total, avail, b1, its)
    requires |b1| == |b| == BLOCK_SIZE && 0 <= x < nr == |its| <= SLOTS
    requires Squeezing(nr, b1, its, b, x + 1) && Off(b1, x) <= Dest(its, x)
    ensures SlotPos(nr) <= Off(b1, x) && ItemIn(b1, Off(b1, x), its[x])
    ensures 0 <= Dest(its, x) && Dest(its, x) + Size(its[x]) == Dest(its, x + 1) <= BLOCK_SIZE
    ensures Readable(b, Off(b, x)) && SizeAt(b, Off(b, x)) == Size(its[x])
  {
    hide Laid, Off, SumSizes, ItemIn, Squeezing, Dest;
    LaidBounds(nr, total, avail, b1, its);
    LaidItem(nr, total, avail, b1, its, x);
    SqueezeSource(nr, b1, its, b, x);
    ItemInParses(b, Off(b, x), its[x]);
  }

  lemma SqueezedIs(b: Image, x: int, from: int, to: int, size: int, r: Image)
    requires |b| == BLOCK_SIZE && 0 <= x < SLOTS && 0 <= from && 0 <= to && 0 <= size
    requires from + size <= BLOCK_SIZE && to + size <= BLOCK_SIZE
    requires from == to ==> r == b
    requires from != to ==>
      var c := WithOff(b, x, to); r == Splice(c, to, c[from..from + size])
    ensures r == Squeezed(b, x, from, to, size)
  {
  }

  /** ngnfs_btree_compact: the same items in the same order, and one single free gap. */
  method Compact(bt: Block)
    requires bt.Valid() && Ordered(bt.items)
    modifies bt, bt.buf
    ensures bt.Valid() && bt.items == old(bt.items) && bt.nrItems == old(bt.nrItems)
    ensures bt.bnr == old(bt.bnr) && bt.level == old(bt.level)
    ensures bt.availFree == bt.totalFree == old(bt.totalFree)
    ensures forall x :: !Hole(bt.nrItems, bt.availFree, bt.buf[..], bt.items, x)
    ensures old(bt.availFree) == old(bt.totalFree) ==> bt.buf[..] == old(bt.buf[..])
  {
    hide Laid, Off, SumSizes, ItemIn, Squeezing, Ascending, Hole, SameFrom, Sort, Ordered, ItemAt;
    ghost var nr, total, b0, items := bt.nrItems, bt.totalFree, bt.buf[..], bt.items;
    LaidBounds(nr, total, bt.availFree, b0, items);
    if bt.availFree == bt.totalFree {
      EqualCountersIffNoHoles(nr, total, bt.availFree, b0, items);
      return;
    }
    SortOffs(bt, OffLess());
    ghost var b1 := bt.buf[..];
    ghost var its := ItemsAt(b1, Offs(b1, nr));
    PermutedLayout(nr, total, bt.availFree, b0, items, b1);
    assert StrictWeak(OffLess());
    SortSorts(OffLess(), Offs(b0, nr));
    SortedAscends(nr, total, bt.availFree, b1, its);
    Squeeze(bt, its);
    ghost var b2 := bt.buf[..];
    SqueezedLayout(nr, total, bt.availFree, b1, its, b2);
    bt.availFree := bt.totalFree;
    assert bt.buf[..] == b2;
    SortOffs(bt, OffKeyLess(bt.buf[..]));
    ghost var b3 := bt.buf[..];
    PermutedLayout(nr, total, total, b2, its, b3);
    SortedByKey(nr, total, total, b2, its, b3, items);
    EqualCountersIffNoHoles(nr, total, total, b3, items);
  }

  lemma SortedByKey(nr: int, total: int, avail: int, b2: Image, its: seq<Item>, b3: Image, items: seq<Item>)
    requires Laid(nr, total, avail, b2, its) && 0 <= nr <= SLOTS
    requires |b3| == BLOCK_SIZE && SameFrom(b2, b3, SlotPos(nr))
    requires Offs(b3, nr) == Sort(OffKeyLess(b2), Offs(b2, nr))
    requires multiset(its) == multiset(items) && Ordered(items)
    ensures ItemsAt(b3, Offs(b3, nr)) == items
  {
    hide Laid, Off, SumSizes, ItemIn, SameFrom, Sort, Ordered, ParseItem;
    LaidBounds(nr, total, avail, b2, its);
    PermutedLayout(nr, total, avail, b2, its, b3);
    var p := Offs(b3, nr);
    var s := ItemsAt(b3, p);
    OffKeyLessIsWeak(b2);
    SortSorts(OffKeyLess(b2), Offs(b2, nr));
    PermutationMembers(p, Offs(b2, nr));
    forall i, j | 0 <= i < j < |s| ensures !KeyLess(s[j].key, s[i].key) {
      assert p[i] in p && p[j] in p;
      SortedMemberPlaced(nr, total, avail, b2, its, b3, p[i]);
      SortedMemberPlaced(nr, total, avail, b2, its, b3, p[j]);
      assert !OffKeyLess(b2)(p[j], p[i]);
    }
    SortedIsOrdered(s, items);
    UniqueOrder(s, items);
  }
}
