/** What an edit of the image must do to keep the layout: the byte-level facts that
    insert_item, remove_item and move_items establish, and the block they leave. */
module Edits {
  import opened Layout

  ghost predicate SameFrom(b0: Image, b1: Image, lo: int)
  {
    && |b0| == |b1|
    && (forall k :: 0 <= k && lo <= k < |b0| ==> b1[k] == b0[k])
  }

  lemma ItemStays(b0: Image, b1: Image, lo: int, off: int, it: Item)
    requires SameFrom(b0, b1, lo) && lo <= off && ItemIn(b0, off, it)
    ensures ItemIn(b1, off, it)
  {
    assert b1[off..off + Size(it)] == b0[off..off + Size(it)];
  }

  /** `items` with `moved` placed at position p. */
  function InsertRun<T>(items: seq<T>, p: int, moved: seq<T>): (s: seq<T>)
    requires 0 <= p <= |items|
    ensures |s| == |items| + |moved|
  {
    items[..p] + moved + items[p..]
  }

  /** `items` without the m elements from position p. */
  function RemoveRun<T>(items: seq<T>, p: int, m: int): (s: seq<T>)
    requires 0 <= p && 0 <= m && p + m <= |items|
    ensures |s| == |items| - m
  {
    items[..p] + items[p + m..]
  }

  /** Where the j-th new payload goes when payloads are taken downwards from `end`. */
  function RunOff(end: int, moved: seq<Item>, j: int): int
    requires 0 <= j < |moved|
  {
    end - SumSizes(moved[..j + 1])
  }

  lemma {:induction false} PrefixSumMonotone(moved: seq<Item>, j: int, k: int)
    requires 0 <= j <= k <= |moved|
    ensures SumSizes(moved[..j]) <= SumSizes(moved[..k])
    ensures j < k ==> SumSizes(moved[..j]) + Size(moved[k - 1]) <= SumSizes(moved[..k])
    decreases k - j
  {
    if j < k {
      PrefixSumMonotone(moved, j, k - 1);
      SumSplit(moved, k - 1);
    }
  }

  lemma RunOffsApart(end: int, moved: seq<Item>, j: int, k: int)
    requires 0 <= j < k < |moved|
    ensures RunOff(end, moved, k) + Size(moved[k]) <= RunOff(end, moved, j)
  {
    PrefixSumMonotone(moved, j + 1, k + 1);
  }

  lemma RunOffBounds(end: int, moved: seq<Item>, j: int)
    requires 0 <= j < |moved|
    ensures end - SumSizes(moved) <= RunOff(end, moved, j)
    ensures RunOff(end, moved, j) + Size(moved[j]) <= end
  {
    assert moved[..|moved|] == moved;
    PrefixSumMonotone(moved, j + 1, |moved|);
    PrefixSumMonotone(moved, 0, j + 1);
  }

  /** The image after a run of payloads and offsets was added at position p. */
  ghost predicate RunAdded(nr: int, end: int, b0: Image, b1: Image, p: int, moved: seq<Item>)
    requires |b0| == |b1| == BLOCK_SIZE && 0 <= p <= nr && nr + |moved| <= SLOTS
  {
    && SameFrom(b0, b1, end)
    && (forall i :: 0 <= i < p ==> Off(b1, i) == Off(b0, i))
    && (forall i :: p + |moved| <= i < nr + |moved| ==> Off(b1, i) == Off(b0, i - |moved|))
    && (forall j :: 0 <= j < |moved| ==> Off(b1, p + j) == RunOff(end, moved, j))
    && (forall j :: 0 <= j < |moved| ==> ItemIn(b1, RunOff(end, moved, j), moved[j]))
  }

  lemma InsertRunAt<T>(items: seq<T>, p: int, moved: seq<T>, i: int)
    requires 0 <= p <= |items| && 0 <= i < |items| + |moved|
    ensures InsertRun(items, p, moved)[i] ==
            if i < p then items[i]
            else if i < p + |moved| then moved[i - p]
            else items[i - |moved|]
  {
  }

  lemma UsedInsertRun(items: seq<Item>, p: int, moved: seq<Item>)
    requires 0 <= p <= |items|
    ensures Used(InsertRun(items, p, moved)) == Used(items) + Used(moved)
  {
    assert items == items[..p] + items[p..];
    UsedConcat(items[..p], items[p..]);
    UsedConcat(items[..p] + moved, items[p..]);
    UsedConcat(items[..p], moved);
  }

  lemma UsedRemoveRun(items: seq<Item>, p: int, m: int)
    requires 0 <= p && 0 <= m && p + m <= |items|
    ensures Used(RemoveRun(items, p, m)) == Used(items) - Used(items[p..p + m])
  {
    var rest := RemoveRun(items, p, m);
    assert InsertRun(rest, p, items[p..p + m]) == items;
    UsedInsertRun(rest, p, items[p..p + m]);
  }

  lemma RunOldItem(nr: int, total: int, avail: int, b0: Image, items: seq<Item>,
                   p: int, moved: seq<Item>, b1: Image, x: int)
    requires Laid(nr, total, avail, b0, items)
    requires 0 <= p <= nr == |items| && |b0| == |b1| == BLOCK_SIZE && nr + |moved| <= SLOTS
    requires RunAdded(nr, End(nr, avail), b0, b1, p, moved)
    requires 0 <= x < nr
    ensures var i := if x < p then x else x + |moved|;
            && Off(b1, i) == Off(b0, x) >= End(nr, avail)
            && ItemIn(b1, Off(b1, i), items[x])
  {
    hide ItemIn, SumSizes, Laid, RunOff;
    LaidItem(nr, total, avail, b0, items, x);
    ItemStays(b0, b1, End(nr, avail), Off(b0, x), items[x]);
    var i := if x < p then x else x + |moved|;
    assert Off(b1, i) == Off(b0, x);
  }

  lemma RunNewItem(nr: int, end: int, b0: Image, p: int, moved: seq<Item>, b1: Image, j: int)
    requires |b0| == |b1| == BLOCK_SIZE && 0 <= p <= nr && nr + |moved| <= SLOTS
    requires RunAdded(nr, end, b0, b1, p, moved)
    requires 0 <= j < |moved|
    ensures Off(b1, p + j) == RunOff(end, moved, j)
    ensures end - SumSizes(moved) <= Off(b1, p + j)
    ensures Off(b1, p + j) + Size(moved[j]) <= end
    ensures ItemIn(b1, Off(b1, p + j), moved[j])
  {
    hide ItemIn, SumSizes, RunOff, SameFrom;
    RunOffBounds(end, moved, j);
  }

  lemma RunItemPlaced(nr: int, total: int, avail: int, b0: Image, items: seq<Item>,
                      p: int, moved: seq<Item>, b1: Image, i: int)
    requires Laid(nr, total, avail, b0, items)
    requires 0 <= p <= nr == |items| && |b0| == |b1| == BLOCK_SIZE && nr + |moved| <= SLOTS
    requires RunAdded(nr, End(nr, avail), b0, b1, p, moved)
    requires 0 <= i < nr + |moved|
    ensures var o, it := Off(b1, i), InsertRun(items, p, moved)[i];
            && End(nr, avail) - SumSizes(moved) <= o
            && ItemIn(b1, o, it)
            && (p <= i < p + |moved| ==>
                  o == RunOff(End(nr, avail), moved, i - p) && o + Size(it) <= End(nr, avail))
            && (i < p ==> o == Off(b0, i) >= End(nr, avail))
            && (p + |moved| <= i ==> o == Off(b0, i - |moved|) >= End(nr, avail))
  {
    hide ItemIn, SumSizes, Laid, RunOff, InsertRun, RunAdded, Off, Size;
    InsertRunAt(items, p, moved, i);
    if p <= i < p + |moved| {
      RunNewItem(nr, End(nr, avail), b0, p, moved, b1, i - p);
    } else {
      RunOldItem(nr, total, avail, b0, items, p, moved, b1, if i < p then i else i - |moved|);
    }
  }

  lemma RunItemsApart(nr: int, total: int, avail: int, b0: Image, items: seq<Item>,
                      p: int, moved: seq<Item>, b1: Image, i: int, j: int)
    requires Laid(nr, total, avail, b0, items)
    requires 0 <= p <= nr == |items| && |b0| == |b1| == BLOCK_SIZE && nr + |moved| <= SLOTS
    requires RunAdded(nr, End(nr, avail), b0, b1, p, moved)
    requires 0 <= i < j < nr + |moved|
    ensures var s := InsertRun(items, p, moved);
            Apart(Off(b1, i), Size(s[i]), Off(b1, j), Size(s[j]))
  {
    hide ItemIn, SumSizes, Laid, RunOff;
    RunItemPlaced(nr, total, avail, b0, items, p, moved, b1, i);
    RunItemPlaced(nr, total, avail, b0, items, p, moved, b1, j);
    InsertRunAt(items, p, moved, i);
    InsertRunAt(items, p, moved, j);
    var m := |moved|;
    if p <= i && j < p + m {
      RunOffsApart(End(nr, avail), moved, i - p, j - p);
    } else if (i < p || p + m <= i) && (j < p || p + m <= j) {
      var x := if i < p then i else i - m;
      var y := if j < p then j else j - m;
      LaidApart(nr, total, avail, b0, items, x, y);
    }
  }

  /** Adding payloads below the free gap's end keeps the layout, at any position. */
  lemma RunAddedKeepsLayout(nr: int, total: int, avail: int, b0: Image, items: seq<Item>,
                            p: int, moved: seq<Item>, b1: Image)
    requires Laid(nr, total, avail, b0, items)
    requires 0 <= p <= nr == |items| && |b0| == |b1| == BLOCK_SIZE && nr + |moved| <= SLOTS
    requires Used(moved) <= avail
    requires RunAdded(nr, End(nr, avail), b0, b1, p, moved)
    ensures Laid(nr + |moved|, total - Used(moved), avail - Used(moved), b1,
                 InsertRun(items, p, moved))
  {
    hide ItemIn, Encode, SumSizes, Apart, InsertRun;
    var s := InsertRun(items, p, moved);
    var n := nr + |moved|;
    var end := End(n, avail - Used(moved));
    var o := Offs(b1, n);
    UsedInsertRun(items, p, moved);
    forall i | 0 <= i < n ensures end <= o[i] && ItemIn(b1, o[i], s[i]) {
      RunItemPlaced(nr, total, avail, b0, items, p, moved, b1, i);
    }
    forall i, j | 0 <= i < j < n ensures Apart(o[i], Size(s[i]), o[j], Size(s[j])) {
      RunItemsApart(nr, total, avail, b0, items, p, moved, b1, i, j);
    }
    assert Placed(b1, end, o, s);
  }

  /** The image after m offsets were taken out at position p; payload bytes stay. */
  ghost predicate RunRemoved(nr: int, end: int, b0: Image, b1: Image, p: int, m: int)
    requires |b0| == |b1| == BLOCK_SIZE && 0 <= p && 0 <= m && p + m <= nr <= SLOTS
  {
    && SameFrom(b0, b1, end)
    && (forall i :: 0 <= i < p ==> Off(b1, i) == Off(b0, i))
    && (forall i :: p <= i < nr - m ==> Off(b1, i) == Off(b0, i + m))
  }

  lemma RunRemovedKeepsLayout(nr: int, total: int, avail: int, b0: Image, items: seq<Item>,
                              p: int, m: int, b1: Image, avail1: int)
    requires Laid(nr, total, avail, b0, items)
    requires |b1| == BLOCK_SIZE && 0 <= p && 0 <= m && p + m <= nr
    requires RunRemoved(nr, End(nr, avail), b0, b1, p, m)
    requires 0 <= avail1 && End(nr - m, avail1) <= BLOCK_SIZE
    requires forall i :: 0 <= i < nr && !(p <= i < p + m) ==> End(nr - m, avail1) <= Off(b0, i)
    ensures Laid(nr - m, total + Used(items[p..p + m]), avail1, b1, RemoveRun(items, p, m))
  {
    hide ItemIn, SumSizes, Apart, Off, Size;
    var s := RemoveRun(items, p, m);
    var n := nr - m;
    var o, o0 := Offs(b1, n), Offs(b0, nr);
    UsedRemoveRun(items, p, m);
    forall i | 0 <= i < n
      ensures End(n, avail1) <= o[i] && ItemIn(b1, o[i], s[i])
    {
      var x := if i < p then i else i + m;
      LaidItem(nr, total, avail, b0, items, x);
      ItemStays(b0, b1, End(nr, avail), o0[x], items[x]);
    }
    forall i, j | 0 <= i < j < n ensures Apart(o[i], Size(s[i]), o[j], Size(s[j])) {
      var x := if i < p then i else i + m;
      var y := if j < p then j else j + m;
      LaidApart(nr, total, avail, b0, items, x, y);
    }
    assert Placed(b1, End(n, avail1), o, s);
  }
}
