/** What splitting and refilling do to a parent and its children, on the items alone
    (shared/btree.c:268-509). */
module Tree {
  import opened Layout
  import opened Moving

  // ---- the moving counts ----

  /** The largest total_item_size of an insertable item. */
  const ITEM_MAX: int := 772

  lemma InsertableTotal(it: Item)
    requires Insertable(it)
    ensures 6 <= TotalSize(it) <= ITEM_MAX
  {
  }

  /** The front loop stops at the first prefix that uses more than the target. */
  lemma {:induction false} TakeCountMeaning(items: seq<Item>, target: int)
    ensures var n := TakeCount(items, target);
            && (n < |items| ==> Used(items[..n]) > target)
            && (n > 0 ==> Used(items[..n - 1]) <= target)
            && (n > 0 <==> items != [] && target >= 0)
  {
    hide Used, TotalSize;
    NoUse();
    if items != [] && target >= 0 {
      var t, tt := items[1..], target - TotalSize(items[0]);
      TakeCountMeaning(t, tt);
      var m := TakeCount(t, tt);
      PrefixCons(items, m);
      if m > 0 {
        PrefixCons(items, m - 1);
      }
    }
  }

  lemma NoUse()
    ensures Used([]) == 0
    ensures forall items: seq<Item> :: items[..0] == []
  {
  }

  lemma PrefixCons(items: seq<Item>, m: int)
    requires items != [] && 0 <= m < |items|
    ensures Used(items[..m + 1]) == TotalSize(items[0]) + Used(items[1..][..m])
  {
    assert items[..m + 1] == [items[0]] + items[1..][..m];
    UsedConcat([items[0]], items[1..][..m]);
    UsedOne(items[0]);
  }

  /** The last n items. */
  function Suffix(items: seq<Item>, n: int): seq<Item>
    requires 0 <= n <= |items|
  {
    items[|items| - n..]
  }

  lemma SuffixSnoc(items: seq<Item>, m: int)
    requires items != [] && 0 <= m < |items|
    ensures var k := |items| - 1;
            Used(Suffix(items, m + 1)) == TotalSize(items[k]) + Used(Suffix(items[..k], m))
  {
    var k := |items| - 1;
    var t := items[..k];
    assert Suffix(items, m + 1) == Suffix(t, m) + [items[k]];
    UsedConcat(Suffix(t, m), [items[k]]);
    UsedOne(items[k]);
  }

  lemma NoSuffix(items: seq<Item>)
    ensures Used(Suffix(items, 0)) == 0
  {
  }

  /** The back loop stops at the first suffix that uses more than the target. */
  lemma {:induction false} TakeCountRightMeaning(items: seq<Item>, target: int)
    ensures var n := TakeCountRight(items, target);
            && (n < |items| ==> Used(Suffix(items, n)) > target)
            && (n > 0 ==> Used(Suffix(items, n - 1)) <= target)
            && (n > 0 <==> items != [] && target >= 0)
    decreases |items|
  {
    hide Used, Suffix, TotalSize;
    NoSuffix(items);
    if items != [] && target >= 0 {
      var k := |items| - 1;
      var t, tt := items[..k], target - TotalSize(items[k]);
      TakeCountRightMeaning(t, tt);
      var m := TakeCountRight(t, tt);
      SuffixSnoc(items, m);
      if m > 0 {
        SuffixSnoc(items, m - 1);
      }
    }
  }

  /** What is moved, in either direction: at most one item more than the target, and more
      than the target unless everything moves. */
  lemma MovedBounds(dst: seq<Item>, src: seq<Item>, srcFirst: bool)
    requires src != [] && AllInsertable(src)
    ensures var n, t := MoveCount(dst, src, srcFirst, false), Target(dst, src);
            && (n > 0 <==> t >= 0)
            && (n > 0 ==> MovedUse(dst, src, srcFirst, false) <= t + ITEM_MAX)
            && (n < |src| ==> MovedUse(dst, src, srcFirst, false) > t)
            && (n == 0 ==> MovedUse(dst, src, srcFirst, false) == 0)
  {
    hide Used, Insertable;
    NoUse();
    var n, t := MoveCount(dst, src, srcFirst, false), Target(dst, src);
    assert src[|src|..] == [];
    if srcFirst {
      TakeCountMeaning(src, t);
      if n > 0 {
        UsedFirst(src, n - 1);
        InsertableTotal(src[n - 1]);
      }
    } else {
      TakeCountRightMeaning(src, t);
      if n > 0 {
        UsedFirst(src, |src| - n);
        InsertableTotal(src[|src| - n]);
      }
    }
  }

  /** "We always move at least one item" holds exactly when src is no emptier than dst. */
  lemma MovesSomethingIff(dst: seq<Item>, src: seq<Item>, srcFirst: bool)
    requires src != []
    ensures MoveCount(dst, src, srcFirst, false) > 0 <==> Used(src) >= Used(dst)
  {
    hide Used;
    var t := Target(dst, src);
    TakeCountMeaning(src, t);
    TakeCountRightMeaning(src, t);
  }

  // ---- percentages and the choice to drain ----

  /** used_pct. */
  function UsedPct(items: seq<Item>): int
  {
    Used(items) * 100 / MAX_FREE
  }

  predicate Drains(bt: seq<Item>, sib: seq<Item>)
  {
    UsedPct(bt) + UsedPct(sib) <= MIN_USED_PCT * 2
  }

  lemma PctBounds(u: int, p: int)
    requires u >= 0 && p == u * 100 / MAX_FREE
    ensures 4080 * p <= 100 * u < 4080 * (p + 1)
  {
    assert MAX_FREE == 4080;
  }

  /** Draining is chosen only when both blocks together use less than 72% of a block's 4080 bytes, and
      always when they use no more than 70%: in between it depends on how the percentages round. */
  lemma DrainFits(bt: seq<Item>, sib: seq<Item>)
    ensures Drains(bt, sib) ==> 100 * (Used(bt) + Used(sib)) < 72 * 4080 && Used(bt) + Used(sib) <= MAX_FREE
    ensures 100 * (Used(bt) + Used(sib)) <= 70 * 4080 ==> Drains(bt, sib)
  {
    hide Used;
    PctBounds(Used(bt), UsedPct(bt));
    PctBounds(Used(sib), UsedPct(sib));
  }

  /** Balancing a block at or under the threshold: dst ends above the mean
      and so above the threshold, at most the largest item over the mean, and fits; something moves, and
      the sibling keeps something. */
  lemma BalanceFits(bt: seq<Item>, sib: seq<Item>, srcFirst: bool)
    requires AllInsertable(sib) && Used(sib) <= MAX_FREE
    requires UsedPct(bt) <= MIN_USED_PCT && !Drains(bt, sib)
    ensures sib != []
    ensures Used(bt) + MovedUse(bt, sib, srcFirst, false) <= (Used(bt) + Used(sib)) / 2 + ITEM_MAX <= MAX_FREE
    ensures 0 < MoveCount(bt, sib, srcFirst, false) < |sib|
    ensures Used(bt) + MovedUse(bt, sib, srcFirst, false) > (Used(bt) + Used(sib)) / 2
    ensures 100 * (Used(bt) + MovedUse(bt, sib, srcFirst, false)) > 35 * 4080
  {
    hide MovedUse, MoveCount, AllInsertable;
    NoUse();
    PctBounds(Used(bt), UsedPct(bt));
    PctBounds(Used(sib), UsedPct(sib));
    MovedBounds(bt, sib, srcFirst);
    MovedAll(bt, sib, srcFirst);
  }

  /** What refilling must leave, in bytes: no sibling when both blocks use at most 70% of one, never that
      from 72% on, and otherwise a block above the mean of the two and so above the threshold, by no more
      than the largest item. */
  predicate Evened(bt: seq<Item>, sib: seq<Item>, btAfter: seq<Item>, sibAfter: seq<Item>) {
    var all := Used(bt) + Used(sib);
    && (100 * all <= 70 * 4080 ==> sibAfter == [])
    && (sibAfter == [] ==> 100 * all < 72 * 4080)
    && (sibAfter != [] ==> all / 2 < Used(btAfter) <= all / 2 + ITEM_MAX && 100 * Used(btAfter) > 35 * 4080)
  }

  lemma MovedAll(dst: seq<Item>, src: seq<Item>, srcFirst: bool)
    ensures MoveCount(dst, src, srcFirst, false) == |src| ==>
              MovedUse(dst, src, srcFirst, false) == Used(src)
  {
    assert src[..|src|] == src && src[0..] == src;
  }

  /** Whatever refill chooses fits, and it empties the sibling exactly when it drains. */
  lemma RefillFits(bt: seq<Item>, sib: seq<Item>, srcFirst: bool)
    requires AllInsertable(sib) && Used(sib) <= MAX_FREE && sib != []
    requires UsedPct(bt) <= MIN_USED_PCT
    ensures var drain := Drains(bt, sib);
            && Used(bt) + MovedUse(bt, sib, srcFirst, drain) <= MAX_FREE
            && (MoveCount(bt, sib, srcFirst, drain) == |sib| <==> drain)
            && MoveCount(bt, sib, srcFirst, drain) > 0
            && (!drain ==> Used(bt) + MovedUse(bt, sib, srcFirst, drain) > (Used(bt) + Used(sib)) / 2)
            && (!drain ==> Used(bt) + MovedUse(bt, sib, srcFirst, drain) <= (Used(bt) + Used(sib)) / 2 + ITEM_MAX)
            && (!drain ==> 100 * (Used(bt) + MovedUse(bt, sib, srcFirst, drain)) > 35 * 4080)
  {
    hide Used, AllInsertable, UsedPct;
    if Drains(bt, sib) {
      DrainFits(bt, sib);
      assert sib[..|sib|] == sib == sib[0..];
    } else {
      BalanceFits(bt, sib, srcFirst);
    }
  }

  /** A split moves the shortest front part that uses more than half, which leaves both halves with
      items when the block was more than two of the largest items
      full. */
  lemma SplitKeepsBoth(bt: seq<Item>)
    requires AllInsertable(bt) && bt != []
    ensures MoveCount([], bt, true, false) > 0
    ensures MoveCount([], bt, true, false) < |bt| <==> Used(bt[..|bt| - 1]) > Used(bt) / 2
    ensures Used(bt) > 2 * ITEM_MAX ==> MoveCount([], bt, true, false) < |bt|
    ensures var n := MoveCount([], bt, true, false);
            && (n < |bt| ==> Used(bt[..n]) > Used(bt) / 2)
            && n > 0 && Used(bt[..n - 1]) <= Used(bt) / 2
  {
    hide Used, AllInsertable;
    NoUse();
    MovesSomethingIff([], bt, true);
    UsedNonNegative(bt);
    TakeCountMeaning(bt, Target([], bt));
    var n := MoveCount([], bt, true, false);
    if n < |bt| {
      UsedPrefix(bt, n, |bt| - 1);
    }
    MovedBounds([], bt, true);
    MovedAll([], bt, true);
  }

  lemma UsedNonNegative(items: seq<Item>)
    ensures Used(items) >= 0
  {
  }

  lemma UsedPrefix(items: seq<Item>, i: int, j: int)
    requires 0 <= i <= j <= |items|
    ensures Used(items[..i]) <= Used(items[..j])
  {
    assert items[..j] == items[..i] + items[i..j];
    UsedConcat(items[..i], items[i..j]);
  }
}
