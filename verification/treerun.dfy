/** A parent block and its child blocks under any run of inserts, deletes, lookups, splits and refills:
    the tree stays linked, answers like one finite map, and every block of it passes verify
    (shared/btree.c:339-509, 576-637). */
module TreeRun {
  import opened Keys
  import opened Layout
  import opened Edits
  import opened BtreeBlock
  import opened Compacting
  import opened Moving
  import opened Tree
  import opened TreeInvariant
  import opened Refilling
  import opened BlockMap
  import opened Verifying
  import opened TreeMap

  // ---- blocks as a tree ----

  ghost predicate AllSeparate(parent: Block, kids: seq<Block>) {
    && (forall i :: 0 <= i < |kids| ==> parent != kids[i] && parent.buf != kids[i].buf)
    && (forall i, j :: 0 <= i < j < |kids| ==> kids[i] != kids[j] && kids[i].buf != kids[j].buf)
  }

  ghost function KidsOf(kids: seq<Block>): (r: seq<Kid>)
    reads kids
    ensures |r| == |kids|
    ensures forall i :: 0 <= i < |kids| ==> r[i] == Kid(kids[i].bnr, kids[i].items)
  {
    seq(|kids|, i requires 0 <= i < |kids| reads kids => Kid(kids[i].bnr, kids[i].items))
  }

  ghost function Bufs(kids: seq<Block>): (s: set<object>)
    ensures forall i :: 0 <= i < |kids| ==> kids[i].buf in s
  {
    set k | k in kids :: k.buf
  }

  ghost predicate NodeOk(b: Block, keySize: nat)
    reads b, b.buf
  {
    b.Valid() && Proper(b.items, keySize)
  }

  /** Valid blocks, linked by references and separators, with keys of one size and the greatest
      separator `bound`. */
  ghost predicate TreeOk(parent: Block, kids: seq<Block>, keySize: nat, bound: Key)
    reads parent, parent.buf, kids, Bufs(kids)
  {
    && AllSeparate(parent, kids) && kids != []
    && NodeOk(parent, keySize) && (forall i :: 0 <= i < |kids| ==> NodeOk(kids[i], keySize))
    && Linked(parent.items, KidsOf(kids))
    && parent.items[|kids| - 1].key == bound
  }

  lemma TreeParts(parent: Block, kids: seq<Block>, keySize: nat, bound: Key)
    ensures TreeOk(parent, kids, keySize, bound) <==>
            && AllSeparate(parent, kids) && kids != []
            && NodeOk(parent, keySize) && (forall i :: 0 <= i < |kids| ==> NodeOk(kids[i], keySize))
            && Linked(parent.items, KidsOf(kids))
            && |parent.items| == |kids| && parent.items[|kids| - 1].key == bound
  {
    hide NodeOk, Ordered, UpTo, TreeInvariant.After, KeyLess;
  }

  lemma TreeFacts(parent: Block, kids: seq<Block>, keySize: nat, bound: Key)
    requires TreeOk(parent, kids, keySize, bound)
    ensures kids != [] && NodeOk(parent, keySize) && Proper(parent.items, keySize) && parent.Valid()
    ensures forall i :: 0 <= i < |kids| ==> NodeOk(kids[i], keySize) && Ordered(kids[i].items)
    ensures Linked(parent.items, KidsOf(kids)) && |parent.items| == |kids| && Ordered(parent.items)
    ensures parent.items[|kids| - 1].key == bound
    ensures forall i :: 0 <= i < |parent.items| ==> |parent.items[i].val| == 8
  {
    hide Laid, Ordered, KeyLess, UpTo, TreeInvariant.After, Linked, Proper;
    LinkedParent(parent.items, KidsOf(kids));
    forall i | 0 <= i < |kids|
      ensures Ordered(kids[i].items)
    {
      assert KidsOf(kids)[i].items == kids[i].items;
    }
  }

  lemma NodeParts(b: Block, keySize: nat)
    requires NodeOk(b, keySize)
    ensures b.Valid() && |b.items| == b.nrItems && AllInsertable(b.items)
    ensures b.totalFree == MAX_FREE - Used(b.items) && 0 <= b.availFree <= b.totalFree
  {
    hide Laid, Used;
    LaidBounds(b.nrItems, b.totalFree, b.availFree, b.buf[..], b.items);
    TotalCountsHoles(b.nrItems, b.totalFree, b.availFree, b.buf[..], b.items);
  }

  lemma LinkedParent(parent: seq<Item>, kids: seq<Kid>)
    requires Linked(parent, kids)
    ensures |parent| == |kids| && Ordered(parent)
    ensures forall i :: 0 <= i < |parent| ==> |parent[i].val| == 8
    ensures forall i :: 0 <= i < |kids| ==> Ordered(kids[i].items)
  {
    hide Ref;
  }

  // ---- one key's child ----

  /** The child whose range has the key, found by a search of the parent; past the last one if the key
      is above every separator. */
  method Descend(parent: Block, key: Key) returns (p: nat)
    requires parent.Valid() && Ordered(parent.items)
    ensures |parent.items| == parent.nrItems && p <= parent.nrItems
    ensures p < parent.nrItems ==> Owns(parent.items, p, key)
    ensures p == parent.nrItems ==> forall i :: 0 <= i < |parent.items| ==> KeyLess(parent.items[i].key, key)
  {
    hide Laid, KeyLess;
    LaidBounds(parent.nrItems, parent.totalFree, parent.availFree, parent.buf[..], parent.items);
    var pos, _ := parent.Search(key);
    p := pos;
  }

  /** An insert or delete in the child that owns the key. */
  method OnChild(parent: Block, kids: seq<Block>, p: nat, op: Op, ghost keySize: nat, ghost bound: Key)
    returns (a: Answer)
    requires TreeOk(parent, kids, keySize, bound) && p < |kids|
    requires (op.Put? && |op.key| == keySize) || op.Remove?
    requires Owns(parent.items, p, op.key)
    modifies kids[p], kids[p].buf
    ensures TreeOk(parent, kids, keySize, bound)
    ensures a == Reply(MapOf(old(kids[p].items)), op)
    ensures a != Fine ==> kids[p].items == old(kids[p].items)
    ensures EntriesOf(KidsOf(kids)) ==
            if a != Fine then old(EntriesOf(KidsOf(kids)))
            else if op.Put? then old(EntriesOf(KidsOf(kids)))[op.key := op.val]
            else old(EntriesOf(KidsOf(kids))) - {op.key}
  {
    hide Laid, Ordered, Linked, MapOf, EntriesOf, Proper, Weight, KeyLess, Insertable;
    ghost var before, items := KidsOf(kids), kids[p].items;
    LinkedParent(parent.items, before);
    if op.Put? {
      a := DoPut(kids[p], op.key, op.val);
    } else {
      a := DoRemove(kids[p], op.key);
    }
    ghost var after := kids[p].items;
    OwnerKeepsTree(parent.items, before, p, after, op, keySize);
    assert KidsOf(kids) == WithItems(before, p, after);
    if a == Fine {
      if op.Put? {
        PutInOwner(parent.items, before, p, after, op.key, op.val);
      } else {
        RemoveFromOwner(parent.items, before, p, after, op.key);
      }
    } else {
      assert KidsOf(kids) == before;
    }
  }

  // ---- split and refill on the tree ----

  /** ngnfs_btree_split into a fresh sibling, by a caller that compacts the parent when its gap is too
      small for the new item. */
  method SplitNode(parent: Block, p: nat, bt: Block, bnr: nat, ghost keySize: nat) returns (sib: Block)
    requires parent != bt && parent.buf != bt.buf && NodeOk(parent, keySize) && NodeOk(bt, keySize)
    requires Ordered(parent.items) && p <= |parent.items|
    requires 0 < MoveCount([], bt.items, true, false) < |bt.items|
    requires keySize + 13 <= parent.totalFree
    modifies parent, parent.buf, bt, bt.buf
    ensures fresh(sib) && fresh(sib.buf) && sib.bnr == bnr && bt.bnr == old(bt.bnr)
    ensures NodeOk(parent, keySize) && NodeOk(bt, keySize) && NodeOk(sib, keySize)
    ensures var n := MoveCount([], old(bt.items), true, false);
            && 0 < n < |old(bt.items)| && p <= |old(parent.items)|
            && sib.items == old(bt.items)[..n] && bt.items == old(bt.items)[n..]
            && parent.items == SplitParent(old(parent.items), p, old(bt.items)[..n], bnr)
  {
    hide Laid, Ordered, Proper, KeyLess, Insertable, MoveCount, Ref, InsertRun, SumSizes, Used, Hole, TotalSize;
    ghost var p0, b0 := parent.items, bt.items;
    ghost var n := MoveCount([], b0, true, false);
    NodeParts(parent, keySize);
    NodeParts(bt, keySize);
    if parent.availFree < parent.totalFree {
      Compact(parent);
    }
    sib := new Block();
    sib.InitBlock(bt.level);
    ghost var sb := sib.buf[..];
    sib.bnr := bnr;
    assert sib.buf[..] == sb;
    LaidBounds(sib.nrItems, sib.totalFree, sib.availFree, sb, []);
    ProperParts(b0, n, keySize);
    ProperParent(p0, p, b0[..n], bnr, keySize);
    SplitItemSize(b0, n, bnr, keySize);
    Split(parent, p, bt, sib);
  }

  lemma SplitItemSize(items: seq<Item>, n: int, bnr: nat, keySize: nat)
    requires Proper(items, keySize) && 0 < n <= |items|
    ensures TotalSize(Item(items[n - 1].key, Ref(bnr))) == keySize + 13
  {
    ItemSize(items[n - 1].key, bnr);
  }

  /** A block beside child p joins the children. */
  lemma JoinsKids(parent: Block, kids: seq<Block>, p: nat, sib: Block, keySize: nat)
    requires AllSeparate(parent, kids) && p < |kids| && AllSeparate(parent, [sib])
    requires forall i :: 0 <= i < |kids| ==> sib != kids[i] && sib.buf != kids[i].buf
    requires NodeOk(sib, keySize) && forall i :: 0 <= i < |kids| ==> NodeOk(kids[i], keySize)
    ensures var r := kids[..p] + [sib] + kids[p..];
            && AllSeparate(parent, r) && (forall i :: 0 <= i < |r| ==> NodeOk(r[i], keySize))
            && KidsOf(r) == SplitKids(KidsOf(kids), p, sib.items, sib.bnr, kids[p].items)
  {
    hide NodeOk;
    var r := kids[..p] + [sib] + kids[p..];
    assert [sib][0] == sib;
    forall i | 0 <= i < |r|
      ensures r[i] == if i < p then kids[i] else if i == p then sib else kids[i - 1]
    {
    }
  }

  /** What the split child held before does not matter to the children after. */
  lemma SplitKidsSame(before: seq<Kid>, now: seq<Kid>, p: nat, left: seq<Item>, bnr: nat, right: seq<Item>)
    requires p < |before| == |now| && now[p].bnr == before[p].bnr
    requires forall i :: 0 <= i < |before| && i != p ==> now[i] == before[i]
    ensures SplitKids(now, p, left, bnr, right) == SplitKids(before, p, left, bnr, right)
  {
    assert now[..p] == before[..p] && now[p + 1..] == before[p + 1..];
  }

  /** Splitting child p: the tree stays linked and reads the same from left to right. */
  method TreeSplit(parent: Block, kids: seq<Block>, p: nat, bnr: nat, ghost keySize: nat, ghost bound: Key)
    returns (r: seq<Block>)
    requires TreeOk(parent, kids, keySize, bound) && p < |kids|
    requires 0 < MoveCount([], kids[p].items, true, false) < |kids[p].items|
    requires keySize + 13 <= parent.totalFree
    modifies parent, parent.buf, kids[p], kids[p].buf
    ensures |r| == |kids| + 1 && r == kids[..p] + [r[p]] + kids[p..] && fresh(r[p]) && fresh(r[p].buf)
    ensures TreeOk(parent, r, keySize, bound)
    ensures var n := MoveCount([], old(kids[p].items), true, false);
            && 0 < n < |old(kids[p].items)|
            && r[p].items == old(kids[p].items)[..n] && kids[p].items == old(kids[p].items)[n..]
            && p < |old(parent.items)|
            && parent.items == SplitParent(old(parent.items), p, old(kids[p].items)[..n], bnr)
    ensures InOrder(KidsOf(r)) == InOrder(old(KidsOf(kids)))
    ensures var half, m := Used(old(kids[p].items)) / 2, |r[p].items| - 1;
            m >= 0 && Used(r[p].items) > half && Used(r[p].items[..m]) <= half
  {
    hide Laid, Ordered, Linked, NodeOk, KeyLess, MoveCount, InOrder, Ref, InsertRun, TreeOk, SplitParent, SplitKids;
    hide Used;
    TreeParts(parent, kids, keySize, bound);
    ghost var before, p0, b0 := KidsOf(kids), parent.items, kids[p].items;
    ghost var n := MoveCount([], b0, true, false);
    LinkedParent(p0, before);
    SplitHalves(b0);
    var sib := SplitNode(parent, p, kids[p], bnr, keySize);
    r := kids[..p] + [sib] + kids[p..];
    JoinsKids(parent, kids, p, sib, keySize);
    SplitKeepsTree(p0, before, p, n, bnr);
    SplitKeepsBound(p0, p, b0[..n], bnr);
    SplitKidsSame(before, KidsOf(kids), p, b0[..n], bnr, b0[n..]);
    TreeParts(parent, r, keySize, bound);
  }

  lemma SameKeySize(parent: seq<Item>, items: seq<Item>, keySize: nat)
    requires Proper(parent, keySize) && Proper(items, keySize)
    ensures forall i, j :: 0 <= i < |parent| && 0 <= j < |items| ==> |items[j].key| == |parent[i].key|
  {
  }

  method RefillNode(parent: Block, btPos: nat, sibPos: nat, bt: Block, sib: Block, ghost keySize: nat)
    requires Separate(parent, bt, sib)
    requires NodeOk(parent, keySize) && NodeOk(bt, keySize) && NodeOk(sib, keySize) && Ordered(bt.items)
    requires btPos < |parent.items| && sibPos < |parent.items| && (sibPos == btPos + 1 || sibPos == btPos - 1)
    requires sib.items != [] && UsedPct(bt.items) <= MIN_USED_PCT
    requires forall i :: 0 <= i < |parent.items| ==> |parent.items[i].val| == 8
    modifies parent, parent.buf, bt, bt.buf, sib, sib.buf
    ensures NodeOk(parent, keySize) && NodeOk(bt, keySize) && NodeOk(sib, keySize)
    ensures bt.bnr == old(bt.bnr) && sib.bnr == old(sib.bnr)
    ensures btPos < |old(parent.items)| && sibPos < |old(parent.items)|
    ensures var n := MoveCount(old(bt.items), old(sib.items), btPos < sibPos, Drains(old(bt.items), old(sib.items)));
            && 0 < n <= |old(sib.items)|
            && bt.items == RefilledBt(old(bt.items), old(sib.items), btPos < sibPos, n) != []
            && sib.items == Kept(old(sib.items), btPos < sibPos, n)
            && parent.items == RefillParent(old(parent.items), btPos, sibPos, bt.bnr, bt.items, sib.items)
    ensures sib.items == [] <==> Drains(old(bt.items), old(sib.items))
    ensures Evened(old(bt.items), old(sib.items), bt.items, sib.items)
  {
    hide Laid, Ordered, Proper, KeyLess, Insertable, MoveCount, Ref, RefilledBt, Kept, Drains, UsedPct, RefillParent;
    hide Evened;
    ghost var p0, b0, s0 := parent.items, bt.items, sib.items;
    NodeParts(parent, keySize);
    NodeParts(sib, keySize);
    SameKeySize(p0, b0, keySize);
    SameKeySize(p0, s0, keySize);
    Refill(parent, btPos, sibPos, bt, sib);
    LaidBounds(sib.nrItems, sib.totalFree, sib.availFree, sib.buf[..], sib.items);
    ghost var n := MoveCount(b0, s0, btPos < sibPos, Drains(b0, s0));
    ProperRefill(b0, s0, btPos < sibPos, n, keySize);
    ProperRefillParent(p0, btPos, sibPos, bt.bnr, bt.items, sib.items, keySize);
  }

  /** The children after a refill, without the sibling if it was emptied. */
  function Remaining(kids: seq<Block>, sibPos: nat, emptied: bool): seq<Block>
    requires sibPos < |kids|
  {
    if emptied then RemoveRun(kids, sibPos, 1) else kids
  }

  lemma LeavesKids(parent: Block, kids: seq<Block>, sibPos: nat, emptied: bool, keySize: nat)
    requires AllSeparate(parent, kids) && sibPos < |kids|
    requires forall i :: 0 <= i < |kids| ==> NodeOk(kids[i], keySize)
    ensures var r := Remaining(kids, sibPos, emptied);
            && AllSeparate(parent, r) && (forall i :: 0 <= i < |r| ==> NodeOk(r[i], keySize))
            && KidsOf(r) == if emptied then RemoveRun(KidsOf(kids), sibPos, 1) else KidsOf(kids)
  {
    hide NodeOk;
    var r := Remaining(kids, sibPos, emptied);
    forall i | 0 <= i < |r|
      ensures r[i] == if emptied && i >= sibPos then kids[i + 1] else kids[i]
    {
    }
  }

  lemma RefilledKids(before: seq<Kid>, after: seq<Kid>, btPos: nat, sibPos: nat, bt: seq<Item>, sib: seq<Item>)
    requires btPos < |before| == |after| && sibPos < |before| && btPos != sibPos
    requires after[btPos] == Kid(before[btPos].bnr, bt) && after[sibPos] == Kid(before[sibPos].bnr, sib)
    requires forall i :: 0 <= i < |before| && i != btPos && i != sibPos ==> after[i] == before[i]
    ensures (if sib == [] then RemoveRun(after, sibPos, 1) else after) == RefillKids(before, btPos, sibPos, bt, sib)
  {
    var k := before[btPos := Kid(before[btPos].bnr, bt)];
    if sib == [] {
      assert after[..sibPos] == k[..sibPos] && after[sibPos + 1..] == k[sibPos + 1..];
    }
  }

  /** Refilling a child from a neighbour: the tree stays linked and reads the same from left to right;
      the neighbour is gone exactly when it was drained. */
  method TreeRefill(parent: Block, kids: seq<Block>, btPos: nat, sibPos: nat, ghost keySize: nat, ghost bound: Key)
    returns (r: seq<Block>)
    requires TreeOk(parent, kids, keySize, bound) && btPos < |kids| && sibPos < |kids|
    requires sibPos == btPos + 1 || sibPos == btPos - 1
    requires kids[sibPos].items != [] && UsedPct(kids[btPos].items) <= MIN_USED_PCT
    modifies parent, parent.buf, kids[btPos], kids[btPos].buf, kids[sibPos], kids[sibPos].buf
    ensures r == Remaining(kids, sibPos, Drains(old(kids[btPos].items), old(kids[sibPos].items)))
    ensures TreeOk(parent, r, keySize, bound)
    ensures InOrder(KidsOf(r)) == InOrder(old(KidsOf(kids)))
    ensures Evened(old(kids[btPos].items), old(kids[sibPos].items), kids[btPos].items, kids[sibPos].items)
  {
    hide Laid, Ordered, Linked, NodeOk, KeyLess, MoveCount, InOrder, Ref, RefilledBt, Kept, Drains, UsedPct, RefillParent;
    hide TreeOk, RefillKids, RemoveRun, Remaining, Evened;
    TreeParts(parent, kids, keySize, bound);
    var bt, sib := kids[btPos], kids[sibPos];
    ghost var before, p0, b0, s0 := KidsOf(kids), parent.items, bt.items, sib.items;
    ghost var n := MoveCount(b0, s0, btPos < sibPos, Drains(b0, s0));
    LinkedParent(p0, before);
    RefillNode(parent, btPos, sibPos, bt, sib, keySize);
    NodeParts(sib, keySize);
    r := Remaining(kids, sibPos, sib.nrItems == 0);
    LeavesKids(parent, kids, sibPos, sib.nrItems == 0, keySize);
    RefillKeepsTree(p0, before, btPos, sibPos, n);
    RefillKeepsBound(p0, btPos, sibPos, bt.bnr, bt.items, sib.items);
    RefilledKids(before, KidsOf(kids), btPos, sibPos, bt.items, sib.items);
    LinkedParent(parent.items, KidsOf(r));
    TreeParts(parent, r, keySize, bound);
  }

  // ---- runs ----

  /** bnr is the number a new block gets if the step needs one. */
  datatype Step =
    | Insert(key: Key, val: seq<Byte>, bnr: nat)
    | Delete(key: Key)
    | Lookup(key: Key, room: nat)
    | PackAt(p: nat)
    | SplitAt(p: nat, bnr: nat)
    | RefillAt(p: nat, right: bool)

  /** What a finite map with keys of one size up to `bound` answers, given room. */
  ghost function Expected(m: Entries, keySize: nat, bound: Key, s: Step): Answer {
    match s
    case Insert(key, val, _) =>
      if !Insertable(Item(key, val)) || |key| != keySize || !KeyLe(key, bound) then Invalid
      else if key in m then Exists
      else Fine
    case Delete(key) => if key in m then Fine else Missing
    case Lookup(key, room) => if key in m then Copied(m[key][..Min(room, |m[key]|)]) else Missing
    case _ => Fine
  }

  function Updated(m: Entries, s: Step, a: Answer): Entries {
    match s
    case Insert(key, val, _) => if a == Fine then m[key := val] else m
    case Delete(key) => m - {key}
    case _ => m
  }

  /** The map's answer, or no room, which only a parent that cannot hold another child gives. */
  ghost predicate Answers(m: Entries, keySize: nat, bound: Key, s: Step, n: nat, a: Answer) {
    a == Expected(m, keySize, bound, s)
    || (a == Full && s.Insert? && Expected(m, keySize, bound, s) == Fine && (n + 1) * (keySize + 13) > MAX_FREE)
  }

  lemma SplitOwner(parent: seq<Item>, p: nat, left: seq<Item>, bnr: nat, key: Key)
    requires Owns(parent, p, key) && left != []
    ensures Owns(SplitParent(parent, p, left, bnr), if KeyLe(key, left[|left| - 1].key) then p else p + 1, key)
  {
    hide InsertRun;
    var last := left[|left| - 1].key;
    CmpIsStrictTotalOrder(key, last, key);
    SplitParentAt(parent, p, left, bnr, p);
    SplitParentAt(parent, p, left, bnr, p + 1);
    if p > 0 {
      SplitParentAt(parent, p, left, bnr, p - 1);
    }
  }

  lemma NotUpToBound(parent: seq<Item>, key: Key)
    requires parent != [] && forall i :: 0 <= i < |parent| ==> KeyLess(parent[i].key, key)
    ensures !KeyLe(key, parent[|parent| - 1].key)
  {
    hide KeyLess;
    var sep := parent[|parent| - 1].key;
    LeLess(key, sep, key);
    LeLess(key, key, sep);
    NotLessItself(key);
  }

  lemma OwnedIsUpToBound(parent: seq<Item>, p: int, key: Key)
    requires Ordered(parent) && Owns(parent, p, key)
    ensures KeyLe(key, parent[|parent| - 1].key)
  {
    hide KeyLess;
    var n := |parent| - 1;
    LeLess(key, parent[p].key, parent[n].key);
  }

  /** What a child's answer to an insert says about the tree. */
  lemma InsertAnswer(parent: seq<Item>, kids: seq<Kid>, p: nat, key: Key, val: seq<Byte>, keySize: nat, bnr: nat)
    requires Linked(parent, kids) && p < |kids| && Owns(parent, p, key) && |key| == keySize
    requires Ordered(kids[p].items) && |parent| == |kids|
    ensures var a := Reply(MapOf(kids[p].items), BlockMap.Put(key, val));
            var e := Expected(EntriesOf(kids), keySize, parent[|parent| - 1].key, Insert(key, val, bnr));
            && (a != Full ==> a == e)
            && (a == Full ==> e == Fine)
            && (a == Full <==>
                && Insertable(Item(key, val)) && key !in MapOf(kids[p].items)
                && Used(kids[p].items) + TotalSize(Item(key, val)) > MAX_FREE)
            && (e == Fine <==> Insertable(Item(key, val)) && key !in MapOf(kids[p].items))
  {
    hide KeyLess, MapOf, EntriesOf, Used, Weight, Insertable, Linked, Ref;
    LinkedParent(parent, kids);
    OwnedIsUpToBound(parent, p, key);
    OwnerAnswers(parent, kids, p, key);
    UsedIsWeight(kids[p].items);
  }

  /** After a split of a child that had no room, the item fits. */
  method InsertAfterSplit(parent: Block, kids: seq<Block>, p: nat, ghost keySize: nat, ghost bound: Key,
                          key: Key, val: seq<Byte>, bnr: nat)
    returns (r: seq<Block>, a: Answer)
    requires TreeOk(parent, kids, keySize, bound) && p < |kids| && Owns(parent.items, p, key) && |key| == keySize
    requires Insertable(Item(key, val)) && key !in MapOf(kids[p].items)
    requires Used(kids[p].items) + TotalSize(Item(key, val)) > MAX_FREE
    requires keySize + 13 <= parent.totalFree
    modifies parent, parent.buf, kids[p], kids[p].buf
    ensures TreeOk(parent, r, keySize, bound) && |r| == |kids| + 1 && a == Fine
    ensures forall i :: 0 <= i < |r| ==> r[i] in kids || (fresh(r[i]) && fresh(r[i].buf))
    ensures EntriesOf(KidsOf(r)) == old(EntriesOf(KidsOf(kids)))[key := val]
  {
    hide Linked, NodeOk, MapOf, EntriesOf, KeyLess, Insertable, Used, Weight, Ordered, MoveCount, Laid, TotalSize;
    hide TreeOk, Expected, Owns, Reply, SplitParent, InOrder;
    TreeFacts(parent, kids, keySize, bound);
    ghost var before, p0, items := KidsOf(kids), parent.items, kids[p].items;
    ghost var n := MoveCount([], items, true, false);
    NodeParts(kids[p], keySize);
    SplitMakesRoom(items, Item(key, val));
    OwnerAnswers(p0, before, p, key);
    r := TreeSplit(parent, kids, p, bnr, keySize, bound);
    ghost var after := KidsOf(r);
    SplitOwner(p0, p, items[..n], bnr, key);
    TreeFacts(parent, r, keySize, bound);
    NodeParts(r[p], keySize);
    TreeParts(parent, r, keySize, bound);
    var last := LastKey(r[p]);
    TreeParts(parent, r, keySize, bound);
    var q := if key == last || CmpKeys(key, last) < 0 then p else p + 1;
    LeIs(key, last);
    assert r[p + 1] == kids[p];
    assert EntriesOf(after) == EntriesOf(before) by { SameOrder(after, before); }
    OwnerAnswers(parent.items, after, q, key);
    InsertAnswer(parent.items, after, q, key, val, keySize, bnr);
    a := OnChild(parent, r, q, BlockMap.Put(key, val), keySize, bound);
  }

  lemma LeIs(a: Key, b: Key)
    ensures KeyLe(a, b) <==> a == b || CmpKeys(a, b) < 0
  {
  }

  lemma SameOrder(a: seq<Kid>, b: seq<Kid>)
    requires InOrder(a) == InOrder(b)
    ensures EntriesOf(a) == EntriesOf(b)
  {
  }

  lemma MapAnswer(m: Entries, keySize: nat, bound: Key, s: Step, n: nat)
    ensures Answers(m, keySize, bound, s, n, Expected(m, keySize, bound, s))
  {
    hide Expected;
  }

  lemma ParentFull(parent: seq<Item>, m: Entries, keySize: nat, bound: Key, s: Step)
    requires Proper(parent, keySize) && forall i :: 0 <= i < |parent| ==> |parent[i].val| == 8
    requires s.Insert? && Expected(m, keySize, bound, s) == Fine && keySize + 13 > MAX_FREE - Used(parent)
    ensures Answers(m, keySize, bound, s, |parent|, Full)
  {
    hide Expected, Used;
    ParentUse(parent, keySize);
    assert (|parent| + 1) * (keySize + 13) == |parent| * (keySize + 13) + (keySize + 13);
  }

  /** An insert into child p by a caller that splits it when it has no room. */
  method InsertInOwner(parent: Block, kids: seq<Block>, p: nat, keySize: nat, ghost bound: Key,
                       key: Key, val: seq<Byte>, bnr: nat)
    returns (r: seq<Block>, a: Answer)
    requires TreeOk(parent, kids, keySize, bound) && p < |kids| && Owns(parent.items, p, key) && |key| == keySize
    modifies parent, parent.buf, kids[p], kids[p].buf
    ensures TreeOk(parent, r, keySize, bound) && |r| <= |kids| + 1
    ensures forall i :: 0 <= i < |r| ==> r[i] in kids || (fresh(r[i]) && fresh(r[i].buf))
    ensures Answers(old(EntriesOf(KidsOf(kids))), keySize, bound, Insert(key, val, bnr), |kids|, a)
    ensures EntriesOf(KidsOf(r)) == if a == Fine then old(EntriesOf(KidsOf(kids)))[key := val] else old(EntriesOf(KidsOf(kids)))
  {
    hide Linked, NodeOk, MapOf, EntriesOf, KeyLess, Insertable, Used, Weight, Ordered, TreeOk, Owns, Reply, Expected;
    hide Answers, UsedPct, Proper;
    TreeFacts(parent, kids, keySize, bound);
    ghost var m, s := EntriesOf(KidsOf(kids)), Insert(key, val, bnr);
    InsertAnswer(parent.items, KidsOf(kids), p, key, val, keySize, bnr);
    ghost var e, i := Expected(m, keySize, bound, s), Reply(MapOf(kids[p].items), BlockMap.Put(key, val));
    assert KidsOf(kids)[p].items == kids[p].items;
    assert (i == Full ==> e == Fine) && (i != Full ==> i == e);
    r := kids;
    a := OnChild(parent, kids, p, BlockMap.Put(key, val), keySize, bound);
    if a == Full {
      TreeFacts(parent, kids, keySize, bound);
      NodeParts(parent, keySize);
      if keySize + 13 <= parent.totalFree {
        r, a := InsertAfterSplit(parent, kids, p, keySize, bound, key, val, bnr);
      } else {
        ParentFull(parent.items, m, keySize, bound, s);
      }
    }
    MapAnswer(m, keySize, bound, s, |kids|);
  }

  method TreeInsert(parent: Block, kids: seq<Block>, keySize: nat, ghost bound: Key, key: Key, val: seq<Byte>, bnr: nat)
    returns (r: seq<Block>, a: Answer)
    requires TreeOk(parent, kids, keySize, bound)
    modifies parent, parent.buf, kids, Bufs(kids)
    ensures TreeOk(parent, r, keySize, bound) && |r| <= |kids| + 1
    ensures forall i :: 0 <= i < |r| ==> r[i] in kids || (fresh(r[i]) && fresh(r[i].buf))
    ensures Answers(old(EntriesOf(KidsOf(kids))), keySize, bound, Insert(key, val, bnr), |kids|, a)
    ensures EntriesOf(KidsOf(r)) == Updated(old(EntriesOf(KidsOf(kids))), Insert(key, val, bnr), a)
  {
    hide Linked, NodeOk, MapOf, EntriesOf, KeyLess, Insertable, Ordered, TreeOk, Owns;
    TreeFacts(parent, kids, keySize, bound);
    if |key| != keySize {
      return kids, Invalid;
    }
    NodeParts(parent, keySize);
    var p := Descend(parent, key);
    if p == |kids| {
      NotUpToBound(parent.items, key);
      return kids, Invalid;
    }
    r, a := InsertInOwner(parent, kids, p, keySize, bound, key, val, bnr);
  }

  method TreeDelete(parent: Block, kids: seq<Block>, ghost keySize: nat, ghost bound: Key, key: Key) returns (a: Answer)
    requires TreeOk(parent, kids, keySize, bound)
    modifies kids, Bufs(kids)
    ensures TreeOk(parent, kids, keySize, bound)
    ensures a == Expected(old(EntriesOf(KidsOf(kids))), keySize, bound, Delete(key))
    ensures EntriesOf(KidsOf(kids)) == old(EntriesOf(KidsOf(kids))) - {key}
  {
    hide Linked, NodeOk, MapOf, EntriesOf, KeyLess, Ordered, TreeOk, Owns;
    TreeFacts(parent, kids, keySize, bound);
    NodeParts(parent, keySize);
    ghost var before := KidsOf(kids);
    var p := Descend(parent, key);
    if p == |kids| {
      AboveAll(parent.items, before, key);
      a := Missing;
    } else {
      OwnerAnswers(parent.items, before, p, key);
      a := OnChild(parent, kids, p, BlockMap.Remove(key), keySize, bound);
    }
    assert a == Missing ==> EntriesOf(before) - {key} == EntriesOf(before);
  }

  method TreeLookup(parent: Block, kids: seq<Block>, ghost keySize: nat, ghost bound: Key, key: Key, room: nat)
    returns (a: Answer)
    requires TreeOk(parent, kids, keySize, bound)
    ensures TreeOk(parent, kids, keySize, bound)
    ensures a == Expected(EntriesOf(KidsOf(kids)), keySize, bound, Lookup(key, room))
  {
    hide Linked, NodeOk, MapOf, EntriesOf, KeyLess, Ordered, TreeOk, Owns;
    TreeFacts(parent, kids, keySize, bound);
    TreeParts(parent, kids, keySize, bound);
    ghost var before := KidsOf(kids);
    NodeParts(parent, keySize);
    var p := Descend(parent, key);
    if p == |kids| {
      AboveAll(parent.items, KidsOf(kids), key);
      a := Missing;
    } else {
      OwnerAnswers(parent.items, KidsOf(kids), p, key);
      NodeParts(kids[p], keySize);
      a := DoGet(kids[p], key, room);
    }
    assert KidsOf(kids) == before && Linked(parent.items, before);
    TreeParts(parent, kids, keySize, bound);
  }

  method TreePack(parent: Block, kids: seq<Block>, ghost keySize: nat, ghost bound: Key, p: nat)
    requires TreeOk(parent, kids, keySize, bound) && p < |kids|
    modifies kids[p], kids[p].buf
    ensures TreeOk(parent, kids, keySize, bound) && KidsOf(kids) == old(KidsOf(kids))
  {
    hide Laid, Linked, KeyLess, Ordered, Proper, Hole;
    LinkedParent(parent.items, KidsOf(kids));
    ghost var before := KidsOf(kids);
    assert before[p].items == kids[p].items;
    Compact(kids[p]);
    assert KidsOf(kids) == before;
  }

  /** What a block's counters say about its items. */
  lemma NodeUse(k: Block, keySize: nat)
    requires NodeOk(k, keySize)
    ensures Used(k.items) == MAX_FREE - k.totalFree && (k.items == [] <==> k.nrItems == 0)
    ensures 100 * Used(k.items) <= 35 * 4080 ==> Pct(k) <= MIN_USED_PCT
  {
    hide Used;
    NodeParts(k, keySize);
    LaidBounds(k.nrItems, k.totalFree, k.availFree, k.buf[..], k.items);
  }

  /** A caller that splits a child only when it is full enough and the parent has room. */
  method SplitIfFull(parent: Block, kids: seq<Block>, p: nat, bnr: nat, keySize: nat, ghost bound: Key)
    returns (r: seq<Block>)
    requires TreeOk(parent, kids, keySize, bound)
    modifies parent, parent.buf, kids, Bufs(kids)
    ensures TreeOk(parent, r, keySize, bound)
    ensures |r| == |kids| + if p < |kids| && old(Used(kids[p].items)) > 1544 && keySize + 13 <= old(parent.totalFree) then 1 else 0
    ensures forall i :: 0 <= i < |r| ==> r[i] in kids || (fresh(r[i]) && fresh(r[i].buf))
    ensures InOrder(KidsOf(r)) == InOrder(old(KidsOf(kids)))
  {
    hide Linked, NodeOk, MapOf, EntriesOf, KeyLess, Ordered, TreeOk, InOrder, Used, MoveCount, AllInsertable;
    TreeFacts(parent, kids, keySize, bound);
    r := kids;
    if p < |kids| {
      NodeUse(kids[p], keySize);
    }
    if p < |kids| && MAX_FREE - kids[p].totalFree > 2 * ITEM_MAX && keySize + 13 <= parent.totalFree {
      NodeParts(kids[p], keySize);
      NoUse();
      SplitKeepsBoth(kids[p].items);
      r := TreeSplit(parent, kids, p, bnr, keySize, bound);
    }
  }

  /** A caller that refills a child at or under the minimum use from a neighbour that has items. */
  method RefillIfSparse(parent: Block, kids: seq<Block>, p: nat, right: bool, ghost keySize: nat, ghost bound: Key)
    returns (r: seq<Block>)
    requires TreeOk(parent, kids, keySize, bound)
    modifies parent, parent.buf, kids, Bufs(kids)
    ensures TreeOk(parent, r, keySize, bound) && |r| <= |kids|
    ensures forall i :: 0 <= i < |r| ==> r[i] in kids
    ensures InOrder(KidsOf(r)) == InOrder(old(KidsOf(kids)))
    ensures var sib := if right then p + 1 else p - 1;
            p < |kids| && 0 <= sib < |kids| && old(kids[sib].items) != [] && 100 * old(Used(kids[p].items)) <= 35 * 4080 ==>
              Evened(old(kids[p].items), old(kids[sib].items), kids[p].items, kids[sib].items)
  {
    hide Linked, NodeOk, MapOf, EntriesOf, KeyLess, Ordered, TreeOk, InOrder, Used, Drains, Evened;
    TreeFacts(parent, kids, keySize, bound);
    r := kids;
    var sib: int := if right then p + 1 else p - 1;
    if p < |kids| && 0 <= sib < |kids| {
      NodeUse(kids[p], keySize);
      NodeUse(kids[sib], keySize);
    }
    if p < |kids| && 0 <= sib < |kids| && kids[sib].nrItems > 0 {
      NodeParts(kids[p], keySize);
      NodeParts(kids[sib], keySize);
      if Pct(kids[p]) <= MIN_USED_PCT {
        r := TreeRefill(parent, kids, p, sib, keySize, bound);
      }
    }
  }

  // ---- any run ----

  method Apply(parent: Block, kids: seq<Block>, keySize: nat, ghost bound: Key, s: Step)
    returns (r: seq<Block>, a: Answer)
    requires TreeOk(parent, kids, keySize, bound)
    modifies parent, parent.buf, kids, Bufs(kids)
    ensures TreeOk(parent, r, keySize, bound) && |r| <= |kids| + 1
    ensures forall i :: 0 <= i < |r| ==> r[i] in kids || (fresh(r[i]) && fresh(r[i].buf))
    ensures Answers(old(EntriesOf(KidsOf(kids))), keySize, bound, s, |kids|, a)
    ensures EntriesOf(KidsOf(r)) == Updated(old(EntriesOf(KidsOf(kids))), s, a)
  {
    hide TreeOk, EntriesOf, InOrder, KeyLess, Insertable;
    r, a := kids, Fine;
    ghost var before := KidsOf(kids);
    match s
    case Insert(key, val, bnr) => r, a := TreeInsert(parent, kids, keySize, bound, key, val, bnr);
    case Delete(key) => a := TreeDelete(parent, kids, keySize, bound, key);
    case Lookup(key, room) => a := TreeLookup(parent, kids, keySize, bound, key, room);
    case PackAt(p) =>
      if p < |kids| {
        TreePack(parent, kids, keySize, bound, p);
      }
    case SplitAt(p, bnr) =>
      r := SplitIfFull(parent, kids, p, bnr, keySize, bound);
      SameOrder(KidsOf(r), before);
    case RefillAt(p, right) =>
      r := RefillIfSparse(parent, kids, p, right, keySize, bound);
      SameOrder(KidsOf(r), before);
  }

  function AfterSteps(m: Entries, steps: seq<Step>, answers: seq<Answer>): Entries
    requires |answers| == |steps|
  {
    if steps == [] then m
    else
      var n := |steps| - 1;
      Updated(AfterSteps(m, steps[..n], answers[..n]), steps[n], answers[n])
  }

  /** Every answer is the map's; an insert is refused for room only by a parent that cannot hold another
      child, so never before that many steps. */
  ghost predicate Agrees(m: Entries, keySize: nat, bound: Key, n: nat, steps: seq<Step>, answers: seq<Answer>)
    requires |answers| == |steps|
  {
    forall i :: 0 <= i < |steps| ==> Answers(AfterSteps(m, steps[..i], answers[..i]), keySize, bound, steps[i], n + i, answers[i])
  }

  lemma AnswersLater(m: Entries, keySize: nat, bound: Key, s: Step, n: nat, k: nat, a: Answer)
    requires Answers(m, keySize, bound, s, n, a) && n <= k
    ensures Answers(m, keySize, bound, s, k, a)
  {
    hide Expected;
    assert (n + 1) * (keySize + 13) <= (k + 1) * (keySize + 13);
  }

  lemma AgreesMore(m: Entries, keySize: nat, bound: Key, n: nat, steps: seq<Step>, answers: seq<Answer>, s: Step, a: Answer)
    requires |answers| == |steps| && Agrees(m, keySize, bound, n, steps, answers)
    requires Answers(AfterSteps(m, steps, answers), keySize, bound, s, n + |steps|, a)
    ensures Agrees(m, keySize, bound, n, steps + [s], answers + [a])
    ensures AfterSteps(m, steps + [s], answers + [a]) == Updated(AfterSteps(m, steps, answers), s, a)
  {
    hide Answers, Updated;
    var t, b := steps + [s], answers + [a];
    assert t[..|steps|] == steps && b[..|steps|] == answers;
    forall i | 0 <= i < |t|
      ensures Answers(AfterSteps(m, t[..i], b[..i]), keySize, bound, t[i], n + i, b[i])
    {
      if i < |steps| {
        assert t[..i] == steps[..i] && b[..i] == answers[..i];
      }
    }
  }

  /** Any run of inserts, deletes, lookups, compactions, splits and refills keeps the tree and refines one
      finite map. */
  method Run(parent: Block, kids: seq<Block>, keySize: nat, ghost bound: Key, steps: seq<Step>)
    returns (r: seq<Block>, answers: seq<Answer>)
    requires TreeOk(parent, kids, keySize, bound)
    modifies parent, parent.buf, kids, Bufs(kids)
    ensures TreeOk(parent, r, keySize, bound)
    ensures forall i :: 0 <= i < |r| ==> r[i] in kids || (fresh(r[i]) && fresh(r[i].buf))
    ensures |answers| == |steps|
    ensures Agrees(old(EntriesOf(KidsOf(kids))), keySize, bound, |kids|, steps, answers)
    ensures EntriesOf(KidsOf(r)) == AfterSteps(old(EntriesOf(KidsOf(kids))), steps, answers)
  {
    hide TreeOk, EntriesOf, Answers, Agrees, Updated, AfterSteps;
    ghost var m := EntriesOf(KidsOf(kids));
    r, answers := kids, [];
    StartAgrees(m, keySize, bound, |kids|);
    for i := 0 to |steps|
      invariant TreeOk(parent, r, keySize, bound) && |r| <= |kids| + i && |answers| == i
      invariant forall j :: 0 <= j < |r| ==> r[j] in kids || (fresh(r[j]) && fresh(r[j].buf))
      invariant Agrees(m, keySize, bound, |kids|, steps[..i], answers)
      invariant EntriesOf(KidsOf(r)) == AfterSteps(m, steps[..i], answers)
    {
      var q, a := Apply(parent, r, keySize, bound, steps[i]);
      AnswersLater(AfterSteps(m, steps[..i], answers), keySize, bound, steps[i], |r|, |kids| + i, a);
      AgreesMore(m, keySize, bound, |kids|, steps[..i], answers, steps[i], a);
      assert steps[..i + 1] == steps[..i] + [steps[i]];
      r, answers := q, answers + [a];
    }
    assert steps[..|steps|] == steps;
  }

  lemma StartAgrees(m: Entries, keySize: nat, bound: Key, n: nat)
    ensures Agrees(m, keySize, bound, n, [], []) && AfterSteps(m, [], []) == m
    ensures forall steps: seq<Step> :: steps[..0] == []
  {
  }

  // ---- from nothing, and verified at the end ----

  /** A parent with one empty child under the greatest separator. */
  method Plant(bound: Key, parentBnr: nat, bnr: nat) returns (parent: Block, kids: seq<Block>)
    requires 1 <= |bound| <= KEY_MAX
    ensures fresh(parent) && fresh(parent.buf) && forall i :: 0 <= i < |kids| ==> fresh(kids[i]) && fresh(kids[i].buf)
    ensures TreeOk(parent, kids, |bound|, bound) && |kids| == 1 && EntriesOf(KidsOf(kids)) == map[]
  {
    hide Laid, Ref, InsertRun, KeyLess, TreeOk, EntriesOf, TotalSize;
    assert TotalSize(Item(bound, Ref(bnr))) <= MAX_FREE by { ItemSize(bound, bnr); }
    var kid := new Block();
    kid.InitBlock(0);
    ghost var kb := kid.buf[..];
    kid.bnr := bnr;
    assert kid.buf[..] == kb;
    parent := new Block();
    parent.InitBlock(1);
    ghost var pb := parent.buf[..];
    parent.bnr := parentBnr;
    assert parent.buf[..] == pb;
    LaidBounds(parent.nrItems, parent.totalFree, parent.availFree, pb, []);
    parent.InsertItem(0, bound, Ref(bnr));
    FirstItem(Item(bound, Ref(bnr)));
    kids := [kid];
    OneEmptyKid(parent, kid, bound, bnr);
  }

  lemma OneEmptyKid(parent: Block, kid: Block, bound: Key, bnr: nat)
    requires parent.Valid() && kid.Valid() && parent != kid && parent.buf != kid.buf && 1 <= |bound| <= KEY_MAX
    requires parent.items == [Item(bound, Ref(bnr))] && kid.items == [] && kid.bnr == bnr
    ensures TreeOk(parent, [kid], |bound|, bound) && EntriesOf(KidsOf([kid])) == map[]
  {
    hide Laid, Ref, KeyLess, Linked, InOrder, MapOf, TreeOk;
    assert KidsOf([kid]) == [Kid(bnr, [])];
    LinkedOne(bound, bnr);
    InOrderOne(Kid(bnr, []));
    NothingWeighs();
    TreeParts(parent, [kid], |bound|, bound);
  }

  lemma LinkedOne(bound: Key, bnr: nat)
    ensures Linked([Item(bound, Ref(bnr))], [Kid(bnr, [])])
  {
    hide Ref, KeyLess;
  }

  lemma ItemSize(key: Key, bnr: nat)
    ensures TotalSize(Item(key, Ref(bnr))) == |key| + 13
  {
  }

  lemma FirstItem(it: Item)
    ensures InsertRun([], 0, [it]) == [it]
  {
  }

  /** verify on a non-empty block of the tree accepts it and leaves its items as they were. */
  method VerifyNode(b: Block, ghost keySize: nat) returns (ok: bool)
    requires NodeOk(b, keySize) && Ordered(b.items) && b.nrItems > 0
    modifies b`items, b.buf
    ensures ok && NodeOk(b, keySize) && b.items == old(b.items)
    ensures Acceptable(b.nrItems, b.totalFree, b.availFree, old(b.buf[..]))
  {
    hide Laid, Ordered, Acceptable, Proper, Used, Resorted;
    ghost var items, b0 := b.items, b.buf[..];
    NodeParts(b, keySize);
    ReachableBlocksAreAccepted(b.nrItems, b.totalFree, b.availFree, b0, items);
    LaidItemAt(b.nrItems, b.totalFree, b.availFree, b0, items);
    UsedNonNegative(items);
    ok := Verify(b);
    UniqueOrder(b.items, items);
  }

  lemma VerifiedTree(parent: Block, before: seq<Kid>, kids: seq<Block>, keySize: nat, bound: Key)
    requires AllSeparate(parent, kids) && kids != [] && NodeOk(parent, keySize)
    requires forall i :: 0 <= i < |kids| ==> NodeOk(kids[i], keySize)
    requires KidsOf(kids) == before && Linked(parent.items, before)
    requires |parent.items| == |kids| && parent.items[|kids| - 1].key == bound
    ensures TreeOk(parent, kids, keySize, bound)
  {
    hide Linked, NodeOk;
  }

  method VerifyKids(parent: Block, kids: seq<Block>, ghost keySize: nat) returns (oks: seq<bool>)
    requires AllSeparate(parent, kids)
    requires forall i :: 0 <= i < |kids| ==> NodeOk(kids[i], keySize) && Ordered(kids[i].items)
    modifies kids`items, Bufs(kids)
    ensures KidsOf(kids) == old(KidsOf(kids)) && forall i :: 0 <= i < |kids| ==> NodeOk(kids[i], keySize)
    ensures |oks| == |kids| && forall i :: 0 <= i < |kids| && kids[i].nrItems > 0 ==> oks[i]
  {
    hide NodeOk, Ordered;
    oks := [];
    for i := 0 to |kids|
      invariant |oks| == i
      invariant forall j :: 0 <= j < |kids| ==> NodeOk(kids[j], keySize) && kids[j].items == old(kids[j].items)
      invariant forall j :: 0 <= j < i && kids[j].nrItems > 0 ==> oks[j]
    {
      var ok := true;
      if kids[i].nrItems > 0 {
        ok := VerifyNode(kids[i], keySize);
      }
      oks := oks + [ok];
    }
    assert KidsOf(kids) == old(KidsOf(kids));
  }

  /** verify accepts every non-empty block of the tree, and the tree stays as it is. */
  method VerifyTree(parent: Block, kids: seq<Block>, ghost keySize: nat, ghost bound: Key)
    returns (top: bool, oks: seq<bool>)
    requires TreeOk(parent, kids, keySize, bound)
    modifies parent`items, parent.buf, kids`items, Bufs(kids)
    ensures TreeOk(parent, kids, keySize, bound) && KidsOf(kids) == old(KidsOf(kids))
    ensures top && |oks| == |kids| && forall i :: 0 <= i < |kids| && kids[i].nrItems > 0 ==> oks[i]
  {
    hide TreeOk, NodeOk, Linked, Ordered, KeyLess;
    TreeFacts(parent, kids, keySize, bound);
    TreeParts(parent, kids, keySize, bound);
    NodeParts(parent, keySize);
    ghost var before := KidsOf(kids);
    top := VerifyNode(parent, keySize);
    oks := VerifyKids(parent, kids, keySize);
    VerifiedTree(parent, before, kids, keySize, bound);
  }

  /** From one empty child, after any run: the tree holds together, the answers and the contents are a
      finite map's, and verify accepts every non-empty block. */
  method RunVerifies(bound: Key, parentBnr: nat, bnr: nat, steps: seq<Step>)
    returns (parent: Block, kids: seq<Block>, answers: seq<Answer>, top: bool, oks: seq<bool>)
    requires 1 <= |bound| <= KEY_MAX
    ensures fresh(parent) && TreeOk(parent, kids, |bound|, bound)
    ensures |answers| == |steps| && Agrees(map[], |bound|, bound, 1, steps, answers)
    ensures EntriesOf(KidsOf(kids)) == AfterSteps(map[], steps, answers)
    ensures top && |oks| == |kids| && forall i :: 0 <= i < |kids| && kids[i].nrItems > 0 ==> oks[i]
  {
    hide TreeOk, EntriesOf, Agrees, AfterSteps, Answers;
    parent, kids := Plant(bound, parentBnr, bnr);
    kids, answers := Run(parent, kids, |bound|, bound, steps);
    top, oks := VerifyTree(parent, kids, |bound|, bound);
  }
}
