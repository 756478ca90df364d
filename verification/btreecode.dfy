/** The places where shared/btree.c as it is written falls short of what its callers need, and
    exactly when it does not (shared/btree.c:72-79, 268-337, 371-385, 511-574, 592-610). */
module BtreeCode {
  import opened Keys
  import opened Layout
  import opened Edits
  import opened ByteEdits
  import opened BtreeBlock
  import opened Compacting
  import opened Options
  import opened Moving
  import opened Tree
  import opened TreeInvariant

  // ---- cmp_item_off sorts from the highest offset down ----

  predicate Descending(offs: seq<int>) {
    forall i, j :: 0 <= i < j < |offs| ==> offs[j] <= offs[i]
  }

  /** verify's loop over payloads in the order it finds them: each must start at or after the end of
      the one before and be readable. */
  predicate ScanAccepts(b: Image, offs: seq<int>, off: int) {
    offs == []
    || (off <= offs[0] && Readable(b, offs[0]) && ScanAccepts(b, offs[1..], offs[0] + SizeAt(b, offs[0])))
  }

  /** With offsets sorted the way the code sorts them, the loop rejects every block of two or more
      items, whatever they are; with at most one item the order does not matter. */
  lemma DescendingScanIff(b: Image, offs: seq<int>, off: int)
    requires Descending(offs)
    ensures ScanAccepts(b, offs, off) <==>
            offs == [] || (|offs| == 1 && off <= offs[0] && Readable(b, offs[0]))
  {
    if |offs| == 1 {
      assert offs[1..] == [];
    } else if |offs| > 1 && Readable(b, offs[0]) {
      assert offs[1..][0] == offs[1];
      assert SizeAt(b, offs[0]) >= ITEM_HEADER;
    }
  }

  /** Readable payloads, each ending no later than the next begins. */
  predicate Chained(b: Image, offs: seq<int>) {
    && (forall i :: 0 <= i < |offs| ==> Readable(b, offs[i]))
    && (forall i :: 0 <= i < |offs| - 1 ==> offs[i] + SizeAt(b, offs[i]) <= offs[i + 1])
  }

  lemma ChainedCons(b: Image, offs: seq<int>)
    requires offs != []
    ensures Chained(b, offs) <==>
            && Readable(b, offs[0]) && Chained(b, offs[1..])
            && (|offs| > 1 ==> offs[0] + SizeAt(b, offs[0]) <= offs[1])
  {
    hide SizeAt;
    var rest := offs[1..];
    assert forall i :: 0 <= i < |rest| ==> rest[i] == offs[i + 1];
    if Readable(b, offs[0]) && Chained(b, rest) && (|offs| > 1 ==> offs[0] + SizeAt(b, offs[0]) <= offs[1]) {
      forall i | 0 <= i < |offs|
        ensures Readable(b, offs[i])
        ensures i < |offs| - 1 ==> offs[i] + SizeAt(b, offs[i]) <= offs[i + 1]
      {
        if i > 0 {
          assert offs[i] == rest[i - 1];
        }
      }
    }
  }

  /** With ascending offsets the loop accepts exactly the readable payloads without overlap. */
  lemma {:induction false} AscendingScanIff(b: Image, offs: seq<int>, off: int)
    ensures ScanAccepts(b, offs, off) <==> Chained(b, offs) && (offs != [] ==> off <= offs[0])
  {
    if offs != [] {
      hide SizeAt, Chained, Readable;
      ChainedCons(b, offs);
      if Readable(b, offs[0]) {
        AscendingScanIff(b, offs[1..], offs[0] + SizeAt(b, offs[0]));
      }
    }
  }

  /** compact walks the array from its end, so with that order it packs the lowest payload against the end
      of the block first. As long as nothing was overwritten the i-th payload goes to Dest(items, i).
      No move of the loop touches a payload not yet moved exactly when the highest payload ends below
      where all the others go. */
  lemma MovesAreClearIff(nr: int, total: int, avail: int, b: Image, items: seq<Item>)
    requires |b| == BLOCK_SIZE && 2 <= nr == |items| <= SLOTS
    requires Laid(nr, total, avail, b, items) && Descending(Offs(b, nr))
    ensures (forall i, j :: 0 <= j < i < nr ==> Apart(Dest(items, i), Size(items[i]), Off(b, j), Size(items[j])))
            <==> Off(b, 0) + Size(items[0]) <= Dest(items, 1)
  {
    hide ItemIn, Off, Laid, SumSizes, Dest;
    if forall i, j :: 0 <= j < i < nr ==> Apart(Dest(items, i), Size(items[i]), Off(b, j), Size(items[j])) {
      FirstIsBelow(nr, total, avail, b, items, 1);
    }
    if Off(b, 0) + Size(items[0]) <= Dest(items, 1) {
      forall i, j | 0 <= j < i < nr
        ensures Apart(Dest(items, i), Size(items[i]), Off(b, j), Size(items[j]))
      {
        EndsBelow(nr, total, avail, b, items, j);
        DestMonotone(items, 1, i);
      }
    }
  }

  /** From the last move down: each leaves the highest payload below it. */
  lemma {:induction false} FirstIsBelow(nr: int, total: int, avail: int, b: Image, items: seq<Item>, i: int)
    requires |b| == BLOCK_SIZE && 1 <= i < nr == |items| <= SLOTS && Laid(nr, total, avail, b, items)
    requires forall k :: i <= k < nr ==> Apart(Dest(items, k), Size(items[k]), Off(b, 0), Size(items[0]))
    ensures Off(b, 0) + Size(items[0]) <= Dest(items, i)
    decreases nr - i
  {
    hide ItemIn, Off, Laid, SumSizes, Dest;
    LaidItem(nr, total, avail, b, items, 0);
    DestStep(items, i);
    if i + 1 < nr {
      FirstIsBelow(nr, total, avail, b, items, i + 1);
    } else {
      LastDest(items);
    }
    assert Apart(Dest(items, i), Size(items[i]), Off(b, 0), Size(items[0]));
  }

  /** The loop from slot x - 1 down, on whatever the bytes say, with a signed index: None if it reads or
      writes outside of the block. */
  function SqueezeCode(b: Image, x: int, off: int): Option<Image>
    requires |b| == BLOCK_SIZE && 0 <= x <= SLOTS && 0 <= off <= BLOCK_SIZE
    decreases x
  {
    if x == 0 then Some(b)
    else
      var from := Off(b, x - 1);
      if !Readable(b, from) || SizeAt(b, from) > off then None
      else
        var to := off - SizeAt(b, from);
        SqueezeCode(Squeezed(b, x - 1, from, to, SizeAt(b, from)), x - 1, to)
  }

  lemma {:induction false} SqueezesOn(nr: int, total: int, avail: int, b1: Image, items: seq<Item>, b: Image, x: int)
    requires |b1| == |b| == BLOCK_SIZE && 0 <= x <= nr == |items| <= SLOTS && Laid(nr, total, avail, b1, items)
    requires forall i :: 0 <= i < nr ==> Off(b1, i) <= Dest(items, i)
    requires Squeezing(nr, b1, items, b, x) && 0 <= Dest(items, x) <= BLOCK_SIZE
    ensures var r := SqueezeCode(b, x, Dest(items, x));
            r.Some? && |r.value| == BLOCK_SIZE && Squeezing(nr, b1, items, r.value, 0)
    decreases x
  {
    hide Laid, Off, SumSizes, ItemIn, Squeezing, Squeezed, Dest, SizeAt, Readable;
    if x > 0 {
      SqueezeReady(nr, total, avail, b1, items, b, x - 1);
      SqueezeStep(nr, b1, items, b, x - 1);
      SqueezesOn(nr, total, avail, b1, items,
                 Squeezed(b, x - 1, Off(b, x - 1), Dest(items, x - 1), Size(items[x - 1])), x - 1);
    }
  }

  /** Below that bound the loop keeps every payload and leaves the block laid out without a hole, even in
      this order. */
  lemma ClearMovesSqueeze(nr: int, total: int, avail: int, b: Image, items: seq<Item>)
    requires |b| == BLOCK_SIZE && 1 <= nr == |items| <= SLOTS
    requires Laid(nr, total, avail, b, items) && Descending(Offs(b, nr))
    requires Off(b, 0) + Size(items[0]) <= Dest(items, 1)
    ensures var r := SqueezeCode(b, nr, BLOCK_SIZE);
            r.Some? && Laid(nr, total, total, r.value, items)
  {
    hide Laid, Off, SumSizes, ItemIn, Squeezing, Dest;
    forall i | 0 <= i < nr
      ensures Off(b, i) <= Dest(items, i)
    {
      EndsBelow(nr, total, avail, b, items, i);
      DestStep(items, i);
      DestMonotone(items, 1, i + 1);
    }
    SqueezingStarts(nr, b, items);
    SqueezesOn(nr, total, avail, b, items, b, nr);
    SqueezedLayout(nr, total, avail, b, items, SqueezeCode(b, nr, BLOCK_SIZE).value);
  }

  /** With descending offsets no payload reaches above the first. */
  lemma EndsBelow(nr: int, total: int, avail: int, b: Image, items: seq<Item>, i: int)
    requires |b| == BLOCK_SIZE && 0 <= i < nr == |items| <= SLOTS
    requires Laid(nr, total, avail, b, items) && Descending(Offs(b, nr))
    ensures Off(b, i) + Size(items[i]) <= Off(b, 0) + Size(items[0])
  {
    hide ItemIn, Off, Laid;
    var offs := Offs(b, nr);
    assert offs[0] == Off(b, 0) && offs[i] == Off(b, i);
    if i > 0 {
      LaidApart(nr, total, avail, b, items, 0, i);
    }
  }

  /** Two items of five bytes, the higher one at the end of the block, and a hole between them. */
  function Example(): (b: Image)
    ensures |b| == BLOCK_SIZE
  {
    seq(BLOCK_SIZE, i =>
      if i == 16 then 251 else if i == 17 then 15 else if i == 18 then 241 else if i == 19 then 15
      else if i == 4081 then 1 else if i == 4083 then 1 else if i == 4084 then 3 else if i == 4085 then 9
      else if i == 4091 then 1 else if i == 4093 then 1 else if i == 4094 then 1 else if i == 4095 then 7 else 0)
  }

  lemma ExampleItems()
    ensures Offs(Example(), 2) == [4091, 4081]
    ensures ItemIn(Example(), 4091, Item([1], [7])) && ItemIn(Example(), 4081, Item([3], [9]))
  {
    var b, p, q := Example(), Item([1], [7]), Item([3], [9]);
    assert Encode(p) == [1, 0, 1, 1, 7] && Encode(q) == [1, 0, 1, 3, 9];
    assert b[4091..4096] == [1, 0, 1, 1, 7] && b[4081..4086] == [1, 0, 1, 3, 9];
    assert Off(b, 0) == 4091 && Off(b, 1) == 4081;
  }

  lemma ExampleLaid()
    ensures Laid(2, 4066, 4061, Example(), [Item([1], [7]), Item([3], [9])])
  {
    hide Example, ItemIn, Off;
    ExampleItems();
    var p, q := Item([1], [7]), Item([3], [9]);
    assert Used([p, q]) == 14 by {
      SumOne(q);
      assert [p, q][1..] == [q];
    }
    var offs, items := Offs(Example(), 2), [p, q];
    forall i | 0 <= i < 2
      ensures End(2, 4061) <= offs[i] && ItemIn(Example(), offs[i], items[i])
    {
      assert i == 0 || i == 1;
    }
  }

  /** A laid out block, with a hole for compact to squeeze out, whose first item the first move of that
      loop overwrites. */
  lemma FirstMoveOverwrites()
    ensures var items := [Item([1], [7]), Item([3], [9])];
            && Laid(2, 4066, 4061, Example(), items) && Ordered(items) && Descending(Offs(Example(), 2))
            && !ItemIn(Splice(Example(), BLOCK_SIZE - Size(items[1]), Encode(items[1])), Off(Example(), 0), items[0])
  {
    hide Example, Laid, Off;
    ExampleLaid();
    ExampleItems();
    var p, q := Item([1], [7]), Item([3], [9]);
    assert Off(Example(), 0) == 4091;
    assert KeyLess([1], [3]) by { assert CmpKeys([1], [3]) < 0; }
    var after := Splice(Example(), 4091, Encode(q));
    assert Encode(q)[3] == 3 && Encode(p)[3] == 1;
    assert after[4091..4096][3] == 3;
  }

  // ---- compact's unsigned index ----

  datatype Outcome = Returned | HitBug

  /** The loop `for (i = nr - 1; i >= 0; i--)` with an unsigned 16-bit i: the test always holds, and
      the first thing the body does is item_ptr's BUG_ON(i > nr_items). */
  function LoopCode(i: nat, nr: nat): Outcome
    requires i < 65536 && nr <= SLOTS
    decreases if i > nr then 0 else i + 1
  {
    if i > nr then HitBug
    else LoopCode((i + 65535) % 65536, nr)
  }

  function CompactCode(nr: nat, total: int, avail: int): Outcome
    requires nr <= SLOTS
  {
    if avail == total then Returned else LoopCode((nr + 65535) % 65536, nr)
  }

  lemma {:induction false} LoopNeverReturns(i: nat, nr: nat)
    requires i < 65536 && nr <= SLOTS
    ensures LoopCode(i, nr) == HitBug
    decreases if i > nr then 0 else i + 1
  {
    if i <= nr {
      LoopNeverReturns((i + 65535) % 65536, nr);
    }
  }

  /** As written, compact returns exactly when there is nothing to do. */
  lemma CompactReturnsIff(nr: nat, total: int, avail: int)
    requires nr <= SLOTS
    ensures CompactCode(nr, total, avail) == Returned <==> avail == total
  {
    LoopNeverReturns((nr + 65535) % 65536, nr);
  }

  // ---- move_items' destination slots ----

  /** Where the i-th moved item's offset goes, in unsigned 16-bit arithmetic. */
  function SlotCode(dstNr: nat, nr: nat, srcFirst: bool, i: nat): nat {
    var d := if srcFirst then (dstNr - nr) % 65536 else 0;
    (d + i) % 65536
  }

  /** set_item_off's BUG_ON, with dst's nr_items not yet raised, passes for every moved item. */
  predicate SlotsPass(dstNr: nat, nr: nat, srcFirst: bool) {
    forall i: nat :: i < nr ==> SlotCode(dstNr, nr, srcFirst, i) <= dstNr
  }

  /** Moving from the right sibling passes only if dst already holds as many items; moving from the
      left only if it holds all but one as many. A split, into an empty block, never passes. */
  lemma SlotsPassIff(dstNr: nat, nr: nat, srcFirst: bool)
    requires dstNr <= SLOTS && 0 < nr <= SLOTS
    ensures SlotsPass(dstNr, nr, srcFirst) <==> if srcFirst then nr <= dstNr else nr <= dstNr + 1
    ensures dstNr == 0 && srcFirst ==> !SlotsPass(dstNr, nr, srcFirst)
  {
    if srcFirst {
      if nr > dstNr {
        assert SlotCode(dstNr, nr, srcFirst, 0) == 65536 + dstNr - nr;
      }
    } else if nr > dstNr + 1 {
      assert SlotCode(dstNr, nr, srcFirst, dstNr + 1) == dstNr + 1;
    }
  }

  /** The offset array after the loop stored the moved items' offsets from the i-th on. */
  function StoreCode(offs: seq<int>, moved: seq<int>, dstNr: nat, srcFirst: bool, i: nat): (r: seq<int>)
    requires i <= |moved| && forall j: nat :: j < |moved| ==> SlotCode(dstNr, |moved|, srcFirst, j) < |offs|
    ensures |r| == |offs|
    decreases |moved| - i
  {
    if i == |moved| then offs
    else StoreCode(offs[SlotCode(dstNr, |moved|, srcFirst, i) := moved[i]], moved, dstNr, srcFirst, i + 1)
  }

  lemma {:induction false} StoredFrom(offs: seq<int>, moved: seq<int>, dstNr: nat, i: nat)
    requires dstNr <= SLOTS && i <= |moved| <= dstNr <= |offs|
    requires forall j: nat :: j < |moved| ==> SlotCode(dstNr, |moved|, true, j) < |offs|
    ensures var at := dstNr - |moved|;
            StoreCode(offs, moved, dstNr, true, i) == offs[..at + i] + moved[i..] + offs[dstNr..]
    decreases |moved| - i
  {
    var at := dstNr - |moved|;
    if i < |moved| {
      assert SlotCode(dstNr, |moved|, true, i) == at + i;
      var more := offs[at + i := moved[i]];
      StoredFrom(more, moved, dstNr, i + 1);
      assert more[..at + i + 1] == offs[..at + i] + [moved[i]];
      assert moved[i..] == [moved[i]] + moved[i + 1..];
      assert more[dstNr..] == offs[dstNr..];
    } else {
      assert offs == offs[..dstNr] + offs[dstNr..];
    }
  }

  /** Where the stores pass from the right sibling, dst's own last offsets are gone and what was behind
      the array comes in: the offsets that the raised nr_items then counts are dst's and the moved ones
      exactly when the moved ones were in both places already. */
  lemma StoredIsJoinedIff(offs: seq<int>, moved: seq<int>, dstNr: nat)
    requires dstNr <= SLOTS && |moved| <= dstNr && dstNr + |moved| <= |offs|
    ensures forall j: nat :: j < |moved| ==> SlotCode(dstNr, |moved|, true, j) < |offs|
    ensures var after := StoreCode(offs, moved, dstNr, true, 0)[..dstNr + |moved|];
            && after == offs[..dstNr - |moved|] + moved + offs[dstNr..dstNr + |moved|]
            && (after == offs[..dstNr] + moved
                <==> moved == offs[dstNr - |moved|..dstNr] && moved == offs[dstNr..dstNr + |moved|])
  {
    var at := dstNr - |moved|;
    StoredFrom(offs, moved, dstNr, 0);
    assert moved[0..] == moved;
    var after := StoreCode(offs, moved, dstNr, true, 0)[..dstNr + |moved|];
    var behind := offs[dstNr..dstNr + |moved|];
    assert after == offs[..at] + moved + behind;
    var meant := offs[..dstNr] + moved;
    if after == meant {
      assert after[at..dstNr] == moved && meant[at..dstNr] == offs[at..dstNr];
      assert after[dstNr..] == behind && meant[dstNr..] == moved;
    }
    assert offs[..dstNr] == offs[..at] + offs[at..dstNr];
  }

  /** The offset array after memmove_tail_offs made room for nr offsets in front of dst's. */
  function MadeRoom(offs: seq<int>, dstNr: nat, nr: nat): (r: seq<int>)
    requires dstNr + nr <= |offs|
    ensures |r| == |offs|
  {
    offs[..nr] + offs[..dstNr] + offs[dstNr + nr..]
  }

  lemma {:induction false} StoredInFront(offs: seq<int>, moved: seq<int>, dstNr: nat, i: nat)
    requires i <= |moved| <= SLOTS && |moved| <= |offs|
    ensures forall j: nat :: j < |moved| ==> SlotCode(dstNr, |moved|, false, j) < |offs|
    ensures StoreCode(offs, moved, dstNr, false, i) == offs[..i] + moved[i..] + offs[|moved|..]
    decreases |moved| - i
  {
    if i < |moved| {
      assert SlotCode(dstNr, |moved|, false, i) == i;
      var more := offs[i := moved[i]];
      StoredInFront(more, moved, dstNr, i + 1);
      assert more[..i + 1] == offs[..i] + [moved[i]];
      assert moved[i..] == [moved[i]] + moved[i + 1..];
      assert more[|moved|..] == offs[|moved|..];
    } else {
      assert offs == offs[..i] + offs[i..];
    }
  }

  /** A move from the left sibling whose stores pass leaves exactly the moved offsets and dst's behind
      them. */
  lemma StoredFromLeft(offs: seq<int>, moved: seq<int>, dstNr: nat)
    requires dstNr <= SLOTS && |moved| <= SLOTS && dstNr + |moved| <= |offs|
    ensures forall j: nat :: j < |moved| ==> SlotCode(dstNr, |moved|, false, j) < |offs|
    ensures StoreCode(MadeRoom(offs, dstNr, |moved|), moved, dstNr, false, 0)[..dstNr + |moved|]
            == moved + offs[..dstNr]
  {
    hide StoreCode, SlotCode, MadeRoom;
    var own, behind := offs[..dstNr], offs[dstNr + |moved|..];
    var room := MadeRoom(offs, dstNr, |moved|);
    StoredInFront(room, moved, dstNr, 0);
    var front := offs[..|moved|];
    RoomParts(offs, dstNr, |moved|);
    FrontReplaced(front, own + behind, moved);
    FrontTaken(moved, own, behind);
  }

  lemma RoomParts(offs: seq<int>, dstNr: nat, nr: nat)
    requires dstNr + nr <= |offs|
    ensures MadeRoom(offs, dstNr, nr) == offs[..nr] + (offs[..dstNr] + offs[dstNr + nr..])
  {
  }

  lemma FrontReplaced(front: seq<int>, rest: seq<int>, moved: seq<int>)
    requires |front| == |moved|
    ensures (front + rest)[..0] + moved[0..] + (front + rest)[|moved|..] == moved + rest
  {
  }

  lemma FrontTaken(moved: seq<int>, own: seq<int>, behind: seq<int>)
    ensures (moved + (own + behind))[..|own| + |moved|] == moved + own
  {
  }

  // ---- the count from the right ----

  /** Without the moving <= target test the loop from the right takes every item. That is right
      exactly when all items but the first use no more than the target. */
  lemma TakingAllIsRightIff(src: seq<Item>, target: int)
    requires src != []
    ensures TakeCountRight(src, target) == |src| <==> Used(Suffix(src, |src| - 1)) <= target
  {
    hide Used, Suffix, TotalSize, TakeCountRight;
    TakeCountRightMeaning(src, target);
    var n := TakeCountRight(src, target);
    if n < |src| {
      SuffixGrows(src, n, |src| - 1);
    }
  }

  lemma SuffixGrows(items: seq<Item>, m: int, n: int)
    requires 0 <= m <= n <= |items|
    ensures Used(Suffix(items, m)) <= Used(Suffix(items, n))
  {
    hide Used;
    assert Suffix(items, n) == items[|items| - n..|items| - m] + Suffix(items, m);
    UsedConcat(items[|items| - n..|items| - m], Suffix(items, m));
    UsedNonNegative(items[|items| - n..|items| - m]);
  }

  // ---- update_parent_ref ----

  /** The parent after a drain into the left block as written: the greater separator gets the child's
      last value, whose size must be a reference's, instead of the reference built for it. */
  function DrainCode(parent: seq<Item>, btPos: int, bt: seq<Item>): seq<Item>
    requires 0 <= btPos && btPos + 1 < |parent| && bt != []
  {
    RemoveRun(parent[btPos + 1 := Item(parent[btPos + 1].key, bt[|bt| - 1].val)], btPos, 1)
  }

  /** The tree then still holds together exactly when the child's last value happens to be the
      reference to the child itself. */
  lemma DrainCodeKeepsTreeIff(parent: seq<Item>, kids: seq<Kid>, btPos: int)
    requires Linked(parent, kids) && 0 <= btPos && btPos + 1 < |kids| && kids[btPos + 1].items != []
    ensures var bt := RefilledBt(kids[btPos].items, kids[btPos + 1].items, true, |kids[btPos + 1].items|);
            && bt != []
            && (Linked(DrainCode(parent, btPos, bt), RefillKids(kids, btPos, btPos + 1, bt, []))
                <==> bt[|bt| - 1].val == Ref(kids[btPos].bnr))
  {
    hide KeyLess, Ref, InOrder, Ordered, UpTo, After, RefilledBt, Kept;
    var n := |kids[btPos + 1].items|;
    var bt := RefilledBt(kids[btPos].items, kids[btPos + 1].items, true, n);
    RefillKeepsTree(parent, kids, btPos, btPos + 1, n);
    assert Kept(kids[btPos + 1].items, true, n) == [] by { AllMoved(kids[btPos + 1].items); }
    RefillDrains(parent, kids, btPos, btPos + 1, bt);
    if bt[|bt| - 1].val == Ref(kids[btPos].bnr) {
      assert DrainCode(parent, btPos, bt) == RefillParent(parent, btPos, btPos + 1, kids[btPos].bnr, bt, []);
    } else {
      assert DrainCode(parent, btPos, bt)[btPos].val == bt[|bt| - 1].val;
      assert RefillKids(kids, btPos, btPos + 1, bt, [])[btPos].bnr == kids[btPos].bnr;
    }
  }

  lemma AllMoved(src: seq<Item>)
    ensures Kept(src, true, |src|) == []
  {
  }
}
