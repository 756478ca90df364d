/** The children of one parent as one finite map: which child a key belongs to, and what changing one
    child does to the whole (shared/btree.c:170-202, 457-509). */
module TreeMap {
  import opened Keys
  import opened Layout
  import opened Edits
  import opened Moving
  import opened Tree
  import opened TreeInvariant
  import opened BlockMap

  /** Everything the children hold. */
  function EntriesOf(kids: seq<Kid>): Entries {
    MapOf(InOrder(kids))
  }

  /** Child p is the one whose range of keys, from the separator before it up to its own, has the key. */
  ghost predicate Owns(parent: seq<Item>, p: int, key: Key) {
    && 0 <= p < |parent| && KeyLe(key, parent[p].key)
    && (p > 0 ==> KeyLess(parent[p - 1].key, key))
  }

  lemma {:induction false} MapConcat(a: seq<Item>, b: seq<Item>)
    ensures MapOf(a + b) == MapOf(a) + MapOf(b)
  {
    if b == [] {
      assert a + b == a;
    } else {
      var n := |b| - 1;
      assert (a + b)[..|a| + n] == a + b[..n];
      MapConcat(a, b[..n]);
    }
  }

  lemma {:induction false} MapKeys(items: seq<Item>, key: Key)
    requires key in MapOf(items)
    ensures exists i :: 0 <= i < |items| && items[i].key == key
  {
    if items != [] && items[|items| - 1].key != key {
      var n := |items| - 1;
      MapKeys(items[..n], key);
      var i :| 0 <= i < |items[..n]| && items[..n][i].key == key;
      assert items[i].key == key;
    }
  }

  lemma {:induction false} InNoKid(kids: seq<Kid>, key: Key)
    requires forall q :: 0 <= q < |kids| ==> key !in MapOf(kids[q].items)
    ensures key !in EntriesOf(kids)
  {
    hide MapOf;
    if kids == [] {
      assert MapOf([]) == map[] by { NothingWeighs(); }
    } else {
      assert forall q :: 0 <= q < |kids[1..]| ==> kids[1..][q] == kids[q + 1];
      InNoKid(kids[1..], key);
      MapConcat(kids[0].items, InOrder(kids[1..]));
    }
  }

  lemma OutOfRange(items: seq<Item>, key: Key, sep: Key)
    ensures UpTo(items, sep) && KeyLess(sep, key) ==> key !in MapOf(items)
    ensures TreeInvariant.After(sep, items) && KeyLe(key, sep) ==> key !in MapOf(items)
  {
    hide KeyLess, MapOf;
    if key in MapOf(items) {
      MapKeys(items, key);
      LeLess(key, sep, key);
      NotLessItself(key);
    }
  }

  /** No other child holds a key of child p's range. */
  lemma OwnerOnly(parent: seq<Item>, kids: seq<Kid>, p: int, key: Key)
    requires Linked(parent, kids) && Owns(parent, p, key)
    ensures key !in EntriesOf(kids[..p]) && key !in EntriesOf(kids[p + 1..])
  {
    hide KeyLess, MapOf, UpTo, TreeInvariant.After, Ref, InOrder;
    var l, r := kids[..p], kids[p + 1..];
    forall q | 0 <= q < p
      ensures key !in MapOf(l[q].items)
    {
      LeLess(parent[q].key, parent[p - 1].key, key);
      OutOfRange(kids[q].items, key, parent[q].key);
    }
    InNoKid(l, key);
    forall q | 0 <= q < |r|
      ensures key !in MapOf(r[q].items)
    {
      var i := q + p + 1;
      assert p < i - 1 ==> KeyLess(parent[p].key, parent[i - 1].key);
      LeLess(key, parent[p].key, parent[i - 1].key);
      OutOfRange(kids[i].items, key, parent[i - 1].key);
    }
    InNoKid(r, key);
  }

  /** A key above every separator is nowhere. */
  lemma AboveAll(parent: seq<Item>, kids: seq<Kid>, key: Key)
    requires Linked(parent, kids) && forall i :: 0 <= i < |parent| ==> KeyLess(parent[i].key, key)
    ensures key !in EntriesOf(kids)
  {
    hide KeyLess, MapOf, UpTo, TreeInvariant.After, Ref, InOrder;
    forall q | 0 <= q < |kids|
      ensures key !in MapOf(kids[q].items)
    {
      OutOfRange(kids[q].items, key, parent[q].key);
    }
    InNoKid(kids, key);
  }

  lemma {:induction false} AroundKid(kids: seq<Kid>, p: int)
    requires 0 <= p < |kids|
    ensures EntriesOf(kids) == EntriesOf(kids[..p]) + MapOf(kids[p].items) + EntriesOf(kids[p + 1..])
  {
    hide MapOf, InOrder;
    var l, r := kids[..p], kids[p + 1..];
    assert kids == l + [kids[p]] + r;
    InOrderConcat(l + [kids[p]], r);
    InOrderConcat(l, [kids[p]]);
    InOrderOne(kids[p]);
    MapConcat(InOrder(l) + kids[p].items, InOrder(r));
    MapConcat(InOrder(l), kids[p].items);
  }

  /** What the tree says of a key is what the child that owns it says. */
  lemma OwnerAnswers(parent: seq<Item>, kids: seq<Kid>, p: int, key: Key)
    requires Linked(parent, kids) && Owns(parent, p, key) && p < |kids|
    ensures key in EntriesOf(kids) <==> key in MapOf(kids[p].items)
    ensures key in EntriesOf(kids) ==> EntriesOf(kids)[key] == MapOf(kids[p].items)[key]
  {
    hide MapOf, InOrder, EntriesOf, Linked, KeyLess;
    OwnerOnly(parent, kids, p, key);
    AroundKid(kids, p);
  }

  // ---- one child changes ----

  function WithItems(kids: seq<Kid>, p: int, items: seq<Item>): (r: seq<Kid>)
    requires 0 <= p < |kids|
    ensures |r| == |kids|
  {
    kids[p := Kid(kids[p].bnr, items)]
  }

  lemma WithItemsAround(kids: seq<Kid>, p: int, items: seq<Item>)
    requires 0 <= p < |kids|
    ensures EntriesOf(WithItems(kids, p, items)) == EntriesOf(kids[..p]) + MapOf(items) + EntriesOf(kids[p + 1..])
  {
    hide MapOf, InOrder, EntriesOf;
    var k := WithItems(kids, p, items);
    assert k[..p] == kids[..p] && k[p + 1..] == kids[p + 1..];
    AroundKid(k, p);
  }

  lemma PutInOwner(parent: seq<Item>, kids: seq<Kid>, p: int, items: seq<Item>, key: Key, val: seq<Byte>)
    requires Linked(parent, kids) && Owns(parent, p, key) && p < |kids|
    requires MapOf(items) == MapOf(kids[p].items)[key := val]
    ensures EntriesOf(WithItems(kids, p, items)) == EntriesOf(kids)[key := val]
  {
    hide MapOf, InOrder, EntriesOf, Linked, KeyLess;
    OwnerOnly(parent, kids, p, key);
    AroundKid(kids, p);
    WithItemsAround(kids, p, items);
  }

  lemma RemoveFromOwner(parent: seq<Item>, kids: seq<Kid>, p: int, items: seq<Item>, key: Key)
    requires Linked(parent, kids) && Owns(parent, p, key) && p < |kids|
    requires MapOf(items) == MapOf(kids[p].items) - {key}
    ensures EntriesOf(WithItems(kids, p, items)) == EntriesOf(kids) - {key}
  {
    hide MapOf, InOrder, EntriesOf, Linked, KeyLess;
    OwnerOnly(parent, kids, p, key);
    AroundKid(kids, p);
    WithItemsAround(kids, p, items);
  }

  /** Sizes that insert lets in, and keys of the tree's key size. */
  predicate Proper(items: seq<Item>, keySize: nat) {
    forall i :: 0 <= i < |items| ==> Insertable(items[i]) && |items[i].key| == keySize
  }

  /** An item after an operation on a child was there before or is the one put in. */
  lemma ItemFrom(items: seq<Item>, after: seq<Item>, op: Op, i: int)
    requires Ordered(items) && Ordered(after) && 0 <= i < |after| && (op.Put? || op.Remove?)
    requires MapOf(after) == BlockMap.After(MapOf(items), op)
    ensures after[i] in items || (op.Put? && Insertable(after[i]) && after[i] == Item(op.key, op.val))
  {
    hide KeyLess, MapOf, Weight, Ordered;
    var key := after[i].key;
    MapOfMeaning(after, key);
    MapOfMeaning(items, key);
    if key in MapOf(items) && MapOf(items)[key] == after[i].val {
      var j :| 0 <= j < |items| && items[j].key == key;
      assert items[j] == after[i];
    }
  }

  /** The owner's operation keeps the tree linked and its items proper. */
  lemma OwnerKeepsTree(parent: seq<Item>, kids: seq<Kid>, p: int, after: seq<Item>, op: Op, keySize: nat)
    requires Linked(parent, kids) && (op.Put? || op.Remove?) && Owns(parent, p, op.key) && p < |kids|
    requires Proper(kids[p].items, keySize) && (op.Put? ==> |op.key| == keySize)
    requires Ordered(after) && MapOf(after) == BlockMap.After(MapOf(kids[p].items), op)
    ensures Proper(after, keySize) && Linked(parent, WithItems(kids, p, after))
  {
    hide KeyLess, MapOf, Ordered, Weight, Ref, Insertable, BlockMap.After;
    var items := kids[p].items;
    forall i | 0 <= i < |after|
      ensures Insertable(after[i]) && |after[i].key| == keySize && KeyLe(after[i].key, parent[p].key)
      ensures p > 0 ==> KeyLess(parent[p - 1].key, after[i].key)
    {
      ItemFrom(items, after, op, i);
    }
    var k := WithItems(kids, p, after);
    assert forall i :: 0 <= i < |k| && i != p ==> k[i] == kids[i];
  }

  // ---- split and refill keep sizes ----

  lemma ProperParts(items: seq<Item>, n: int, keySize: nat)
    requires Proper(items, keySize) && 0 <= n <= |items|
    ensures Proper(items[..n], keySize) && Proper(items[n..], keySize)
  {
  }

  lemma ProperParent(parent: seq<Item>, pos: int, left: seq<Item>, bnr: nat, keySize: nat)
    requires Proper(parent, keySize) && Proper(left, keySize) && left != [] && 0 <= pos <= |parent|
    ensures Proper(SplitParent(parent, pos, left, bnr), keySize)
  {
    hide InsertRun;
    var r := SplitParent(parent, pos, left, bnr);
    assert Insertable(left[|left| - 1]);
    forall i | 0 <= i < |r|
      ensures Insertable(r[i]) && |r[i].key| == keySize
    {
      SplitParentAt(parent, pos, left, bnr, i);
    }
  }

  lemma ProperRefill(bt: seq<Item>, sib: seq<Item>, srcFirst: bool, n: int, keySize: nat)
    requires Proper(bt, keySize) && Proper(sib, keySize) && 0 <= n <= |sib|
    ensures Proper(RefilledBt(bt, sib, srcFirst, n), keySize) && Proper(Kept(sib, srcFirst, n), keySize)
  {
  }

  lemma ProperRefillParent(parent: seq<Item>, btPos: int, sibPos: int, bnr: nat, bt: seq<Item>, sib: seq<Item>, keySize: nat)
    requires Proper(parent, keySize) && Proper(bt, keySize) && Proper(sib, keySize) && bt != []
    requires 0 <= btPos < |parent| && 0 <= sibPos < |parent|
    requires forall i :: 0 <= i < |parent| ==> |parent[i].val| == 8
    ensures Proper(RefillParent(parent, btPos, sibPos, bnr, bt, sib), keySize)
  {
    assert Insertable(bt[|bt| - 1]);
    if sib != [] {
      assert Insertable(sib[|sib| - 1]);
    }
  }

  /** Split and refill never change the greatest separator. */
  lemma SplitKeepsBound(parent: seq<Item>, pos: int, left: seq<Item>, bnr: nat)
    requires 0 <= pos < |parent| && left != []
    ensures var r := SplitParent(parent, pos, left, bnr);
            |r| == |parent| + 1 && r[|parent|].key == parent[|parent| - 1].key
  {
  }

  lemma RefillKeepsBound(parent: seq<Item>, btPos: int, sibPos: int, bnr: nat, bt: seq<Item>, sib: seq<Item>)
    requires 0 <= btPos < |parent| && 0 <= sibPos < |parent| && bt != []
    requires sibPos == btPos + 1 || sibPos == btPos - 1
    ensures var r := RefillParent(parent, btPos, sibPos, bnr, bt, sib);
            r != [] && r[|r| - 1].key == parent[|parent| - 1].key
  {
  }

  // ---- room ----

  /** A block that an insertable item does not fit into splits into two that it fits into both, and
      neither of which is empty. */
  lemma SplitMakesRoom(items: seq<Item>, it: Item)
    requires AllInsertable(items) && Insertable(it)
    requires Used(items) <= MAX_FREE < Used(items) + TotalSize(it)
    ensures var n := MoveCount([], items, true, false);
            && 0 < n < |items|
            && Used(items[..n]) + TotalSize(it) <= MAX_FREE
            && Used(items[n..]) + TotalSize(it) <= MAX_FREE
  {
    hide Used, AllInsertable, MoveCount;
    NoUse();
    InsertableTotal(it);
    SplitKeepsBoth(items);
    MovedBounds([], items, true);
    var n := MoveCount([], items, true, false);
    assert items == items[..n] + items[n..];
    UsedConcat(items[..n], items[n..]);
  }

  /** The bytes a parent of so many children uses. */
  lemma {:induction false} ParentUse(parent: seq<Item>, keySize: nat)
    requires Proper(parent, keySize) && forall i :: 0 <= i < |parent| ==> |parent[i].val| == 8
    ensures Used(parent) == |parent| * (keySize + 13)
  {
    if parent != [] {
      var rest := parent[1..];
      ParentUse(rest, keySize);
    }
  }
}
