/** The parent and its children: references, separators and in-order contents, and how split
    and refill keep them (shared/btree.c:339-385, 457-509). */
module TreeInvariant {
  import opened Keys
  import opened Layout
  import opened Edits
  import opened Moving

  // ---- child references ----

  const BNR_LIMIT: int := 0x1_0000_0000_0000_0000

  function LeBytes(n: nat, k: nat): (bs: seq<Byte>)
    ensures |bs| == k
  {
    if k == 0 then [] else [n % 256] + LeBytes(n / 256, k - 1)
  }

  function LeValue(bs: seq<Byte>): nat
  {
    if bs == [] then 0 else bs[0] as int + 256 * LeValue(bs[1..])
  }

  function Pow256(k: nat): nat
  {
    if k == 0 then 1 else 256 * Pow256(k - 1)
  }

  lemma {:induction false} LeRoundTrip(n: nat, k: nat)
    requires n < Pow256(k)
    ensures LeValue(LeBytes(n, k)) == n
  {
    if k > 0 {
      assert LeBytes(n, k)[1..] == LeBytes(n / 256, k - 1);
      LeRoundTrip(n / 256, k - 1);
    }
  }

  /** The value of a parent item: the child's block number as a __le64. */
  function Ref(bnr: nat): (bs: seq<Byte>)
    ensures |bs| == 8
  {
    LeBytes(bnr, 8)
  }

  /** A reference names one block number only. */
  lemma RefIdentifies(a: nat, b: nat)
    requires a < BNR_LIMIT && b < BNR_LIMIT
    ensures Ref(a) == Ref(b) <==> a == b
  {
    assert Pow256(8) == BNR_LIMIT by {
      assert Pow256(4) == 0x1_0000_0000;
    }
    LeRoundTrip(a, 8);
    LeRoundTrip(b, 8);
  }

  lemma LeValueFrom(bs: seq<Byte>, i: nat)
    requires i < |bs|
    ensures LeValue(bs[i..]) == bs[i] as int + 256 * LeValue(bs[i + 1..])
  {
    assert bs[i..][1..] == bs[i + 1..];
  }

  /** The eight bytes are the digits of the block number to the base 256, the lowest first. */
  lemma RefIsLittleEndian(bnr: nat)
    requires bnr < BNR_LIMIT
    ensures var r := Ref(bnr);
            bnr == r[0] as int + 0x100 * r[1] as int + 0x1_0000 * r[2] as int + 0x100_0000 * r[3] as int
                   + 0x1_0000_0000 * r[4] as int + 0x100_0000_0000 * r[5] as int
                   + 0x1_0000_0000_0000 * r[6] as int + 0x100_0000_0000_0000 * r[7] as int
  {
    var r := Ref(bnr);
    assert Pow256(8) == BNR_LIMIT by {
      assert Pow256(4) == 0x1_0000_0000;
    }
    LeRoundTrip(bnr, 8);
    assert LeValue(r) == bnr && r[0..] == r;
    hide LeValue, LeBytes, Ref;
    forall i | 0 <= i < 8
      ensures LeValue(r[i..]) == r[i] as int + 256 * LeValue(r[i + 1..])
    {
      LeValueFrom(r, i);
    }
    assert LeValue(r[8..]) == 0 by { NoValue(r[8..]); }
  }

  lemma NoValue(bs: seq<Byte>)
    requires bs == []
    ensures LeValue(bs) == 0
  {
  }

  // ---- the invariant ----

  datatype Kid = Kid(bnr: nat, items: seq<Item>)

  ghost predicate KeyLe(a: Key, b: Key)
  {
    a == b || KeyLess(a, b)
  }

  /** Every key of `items` is <= sep. */
  ghost predicate UpTo(items: seq<Item>, sep: Key)
  {
    forall i :: 0 <= i < |items| ==> KeyLe(items[i].key, sep)
  }

  /** Every key of `items` is > sep. */
  ghost predicate After(sep: Key, items: seq<Item>)
  {
    forall i :: 0 <= i < |items| ==> KeyLess(sep, items[i].key)
  }

  /** Parent item i refers to child i, bounds its keys from above and is below all of the next. */
  ghost predicate Linked(parent: seq<Item>, kids: seq<Kid>)
  {
    && |parent| == |kids|
    && Ordered(parent)
    && (forall i :: 0 <= i < |kids| ==> parent[i].val == Ref(kids[i].bnr))
    && (forall i :: 0 <= i < |kids| ==> Ordered(kids[i].items))
    && (forall i :: 0 <= i < |kids| ==> UpTo(kids[i].items, parent[i].key))
    && (forall i :: 0 < i < |kids| ==> After(parent[i - 1].key, kids[i].items))
  }

  /** Everything the children hold, left to right. */
  function InOrder(kids: seq<Kid>): seq<Item>
  {
    if kids == [] then [] else kids[0].items + InOrder(kids[1..])
  }

  lemma {:induction false} InOrderConcat(a: seq<Kid>, b: seq<Kid>)
    ensures InOrder(a + b) == InOrder(a) + InOrder(b)
  {
    if a == [] {
      assert a + b == b;
    } else {
      assert (a + b)[1..] == a[1..] + b;
      InOrderConcat(a[1..], b);
    }
  }

  /** Replacing a run of children by another with the same contents keeps the in-order items. */
  lemma {:induction false} InOrderReplaced(kids: seq<Kid>, p: int, q: int, mid: seq<Kid>)
    requires 0 <= p <= q <= |kids|
    requires InOrder(mid) == InOrder(kids[p..q])
    ensures InOrder(kids[..p] + mid + kids[q..]) == InOrder(kids)
  {
    hide InOrder;
    assert kids == kids[..p] + kids[p..q] + kids[q..];
    InOrderConcat(kids[..p] + kids[p..q], kids[q..]);
    InOrderConcat(kids[..p], kids[p..q]);
    InOrderConcat(kids[..p] + mid, kids[q..]);
    InOrderConcat(kids[..p], mid);
  }

  lemma {:induction false} InOrderOne(a: Kid)
    ensures InOrder([a]) == a.items
  {
    assert [a][1..] == [];
    assert InOrder([a]) == a.items + [];
  }

  lemma {:induction false} InOrderTwo(a: Kid, b: Kid)
    ensures InOrder([a, b]) == a.items + b.items
  {
    assert [a, b][1..] == [b];
    InOrderOne(b);
  }

  // ---- key order helpers ----

  lemma LeLess(a: Key, b: Key, c: Key)
    ensures KeyLe(a, b) && KeyLess(b, c) ==> KeyLess(a, c)
    ensures KeyLess(a, b) && KeyLe(b, c) ==> KeyLess(a, c)
    ensures KeyLe(a, b) && KeyLe(b, c) ==> KeyLe(a, c)
    ensures !(KeyLe(a, b) && KeyLess(b, a))
  {
    CmpIsStrictTotalOrder(a, b, c);
    CmpIsStrictTotalOrder(a, b, a);
  }

  lemma LastBounds(items: seq<Item>)
    requires Ordered(items) && items != []
    ensures UpTo(items, items[|items| - 1].key)
  {
  }

  lemma UpToWeaken(items: seq<Item>, a: Key, b: Key)
    requires UpTo(items, a) && KeyLe(a, b)
    ensures UpTo(items, b)
  {
    forall i | 0 <= i < |items| ensures KeyLe(items[i].key, b) {
      LeLess(items[i].key, a, b);
    }
  }

  lemma AfterWeaken(a: Key, b: Key, items: seq<Item>)
    requires After(b, items) && KeyLe(a, b)
    ensures After(a, items)
  {
    forall i | 0 <= i < |items| ensures KeyLess(a, items[i].key) {
      LeLess(a, b, items[i].key);
    }
  }

  /** A cut of ordered items: the last key on the left bounds the left and is below the right. */
  lemma CutOrdered(all: seq<Item>, l: seq<Item>, r: seq<Item>)
    requires Ordered(all) && all == l + r
    ensures Ordered(l) && Ordered(r)
    ensures l != [] ==> UpTo(l, l[|l| - 1].key) && After(l[|l| - 1].key, r)
  {
    forall i, j | 0 <= i < j < |l| ensures KeyLess(l[i].key, l[j].key) {
      assert all[i] == l[i] && all[j] == l[j];
    }
    forall i, j | 0 <= i < j < |r| ensures KeyLess(r[i].key, r[j].key) {
      assert all[|l| + i] == r[i] && all[|l| + j] == r[j];
    }
    if l != [] {
      LastBounds(l);
      forall j | 0 <= j < |r| ensures KeyLess(l[|l| - 1].key, r[j].key) {
        assert all[|l| - 1] == l[|l| - 1] && all[|l| + j] == r[j];
      }
    }
  }

  /** Ordered items below a separator and ordered items above it join in order. */
  lemma JoinOrdered(l: seq<Item>, sep: Key, r: seq<Item>)
    requires Ordered(l) && Ordered(r) && UpTo(l, sep) && After(sep, r)
    ensures Ordered(l + r)
  {
    var all := l + r;
    forall i, j | 0 <= i < j < |all| ensures KeyLess(all[i].key, all[j].key) {
      if i < |l| <= j {
        LeLess(l[i].key, sep, r[j - |l|].key);
      }
    }
  }

  // ---- split ----

  function SplitParent(parent: seq<Item>, pos: int, left: seq<Item>, sibBnr: nat): seq<Item>
    requires 0 <= pos <= |parent| && left != []
  {
    InsertRun(parent, pos, [Item(left[|left| - 1].key, Ref(sibBnr))])
  }

  function SplitKids(kids: seq<Kid>, pos: int, left: seq<Item>, sibBnr: nat, right: seq<Item>): seq<Kid>
    requires 0 <= pos < |kids|
  {
    kids[..pos] + [Kid(sibBnr, left), Kid(kids[pos].bnr, right)] + kids[pos + 1..]
  }

  /** Splitting keeps the in-order items, and keeps the separators right exactly when the last
      key that moved is not the separator itself. */
  lemma {:induction false} SplitKeepsTree(parent: seq<Item>, kids: seq<Kid>, pos: int, n: int, sibBnr: nat)
    requires Linked(parent, kids) && 0 <= pos < |kids| && 0 < n <= |kids[pos].items|
    ensures var l, r := kids[pos].items[..n], kids[pos].items[n..];
            && InOrder(SplitKids(kids, pos, l, sibBnr, r)) == InOrder(kids)
            && (Linked(SplitParent(parent, pos, l, sibBnr), SplitKids(kids, pos, l, sibBnr, r))
                <==> l[n - 1].key != parent[pos].key)
            && (r != [] ==> l[n - 1].key != parent[pos].key)
  {
    hide InOrder, KeyLess, InsertRun;
    var it := kids[pos].items;
    var l, r := it[..n], it[n..];
    assert it == l + r;
    CutOrdered(it, l, r);
    assert kids[pos..pos + 1] == [kids[pos]];
    InOrderOne(kids[pos]);
    InOrderTwo(Kid(sibBnr, l), Kid(kids[pos].bnr, r));
    InOrderReplaced(kids, pos, pos + 1, [Kid(sibBnr, l), Kid(kids[pos].bnr, r)]);
    assert it[n - 1] == l[n - 1];
    LastBelow(it, n, parent[pos].key);
    if l[n - 1].key != parent[pos].key {
      assert KeyLe(it[n - 1].key, parent[pos].key);
      SplitLinks(parent, kids, pos, n, sibBnr);
    } else {
      SplitBreaks(parent, kids, pos, n, sibBnr);
    }
  }

  /** A key with another one after it is not the upper bound of both. */
  lemma LastBelow(items: seq<Item>, n: int, sep: Key)
    requires Ordered(items) && UpTo(items, sep) && 0 < n <= |items|
    ensures n < |items| ==> items[n - 1].key != sep
  {
    hide KeyLess;
    if n < |items| {
      LeLess(items[n].key, sep, items[n].key);
      assert KeyLess(items[n - 1].key, items[n].key);
      LeLess(items[n].key, items[n - 1].key, items[n].key);
    }
  }

  lemma SplitParentAt(parent: seq<Item>, pos: int, left: seq<Item>, sibBnr: nat, i: int)
    requires 0 <= pos <= |parent| && left != [] && 0 <= i <= |parent|
    ensures |SplitParent(parent, pos, left, sibBnr)| == |parent| + 1
    ensures SplitParent(parent, pos, left, sibBnr)[i] ==
            if i < pos then parent[i]
            else if i == pos then Item(left[|left| - 1].key, Ref(sibBnr)) else parent[i - 1]
  {
  }

  lemma SplitBreaks(parent: seq<Item>, kids: seq<Kid>, pos: int, n: int, sibBnr: nat)
    requires Linked(parent, kids) && 0 <= pos < |kids| && 0 < n <= |kids[pos].items|
    requires kids[pos].items[n - 1].key == parent[pos].key
    ensures !Ordered(SplitParent(parent, pos, kids[pos].items[..n], sibBnr))
  {
    hide InsertRun;
    var l := kids[pos].items[..n];
    SplitParentAt(parent, pos, l, sibBnr, pos);
    SplitParentAt(parent, pos, l, sibBnr, pos + 1);
    CmpIsStrictTotalOrder(parent[pos].key, parent[pos].key, parent[pos].key);
    var p := SplitParent(parent, pos, l, sibBnr);
    assert !KeyLess(p[pos].key, p[pos + 1].key);
  }

  lemma SplitLinks(parent: seq<Item>, kids: seq<Kid>, pos: int, n: int, sibBnr: nat)
    requires Linked(parent, kids) && 0 <= pos < |kids| && 0 < n <= |kids[pos].items|
    requires KeyLess(kids[pos].items[n - 1].key, parent[pos].key)
    ensures Linked(SplitParent(parent, pos, kids[pos].items[..n], sibBnr),
                   SplitKids(kids, pos, kids[pos].items[..n], sibBnr, kids[pos].items[n..]))
  {
    hide KeyLess, Ref;
    var it := kids[pos].items;
    var l, r := it[..n], it[n..];
    var pm := [Item(l[n - 1].key, Ref(sibBnr)), parent[pos]];
    var mid := [Kid(sibBnr, l), Kid(kids[pos].bnr, r)];
    HalvesLinked(it, n, parent[pos], kids[pos].bnr, sibBnr);
    if pos > 0 {
      CutAfter(parent[pos - 1].key, it, n);
      assert KeyLess(parent[pos - 1].key, it[0].key);
    }
    SpliceLinked(parent, kids, pos, pos + 1, pm, mid);
    assert SplitParent(parent, pos, l, sibBnr) == parent[..pos] + pm + parent[pos + 1..];
  }

  lemma HalvesLinked(it: seq<Item>, n: int, own: Item, bnr: nat, sibBnr: nat)
    requires Ordered(it) && UpTo(it, own.key) && own.val == Ref(bnr) && 0 < n <= |it|
    requires KeyLess(it[n - 1].key, own.key)
    ensures Linked([Item(it[..n][n - 1].key, Ref(sibBnr)), own], [Kid(sibBnr, it[..n]), Kid(bnr, it[n..])])
  {
    hide KeyLess, Ref;
    var l, r := it[..n], it[n..];
    assert it == l + r;
    CutOrdered(it, l, r);
    CutUpTo(it, n, own.key);
  }

  lemma CutUpTo(items: seq<Item>, n: int, sep: Key)
    requires 0 <= n <= |items| && UpTo(items, sep)
    ensures UpTo(items[..n], sep) && UpTo(items[n..], sep)
  {
  }

  lemma CutAfter(sep: Key, items: seq<Item>, n: int)
    requires 0 <= n <= |items| && After(sep, items)
    ensures After(sep, items[..n]) && After(sep, items[n..])
    ensures n > 0 ==> KeyLess(sep, items[n - 1].key)
  {
  }

  // ---- replacing a run of children and their parent items ----

  /** What sits at slot i after slots p..q were replaced by `mid`. */
  lemma SplicedAt<T>(s: seq<T>, p: int, q: int, mid: seq<T>, i: int)
    requires 0 <= p <= q <= |s| && 0 <= i < |s| - (q - p) + |mid|
    ensures (s[..p] + mid + s[q..])[i] ==
            if i < p then s[i] else if i < p + |mid| then mid[i - p] else s[i - |mid| + (q - p)]
  {
  }

  lemma SplicedOrdered(parent: seq<Item>, p: int, q: int, pm: seq<Item>)
    requires Ordered(parent) && Ordered(pm) && 0 <= p < q <= |parent| && pm != []
    requires pm[|pm| - 1].key == parent[q - 1].key
    requires p > 0 ==> KeyLess(parent[p - 1].key, pm[0].key)
    ensures Ordered(parent[..p] + pm + parent[q..])
  {
    hide KeyLess;
    var r := parent[..p] + pm + parent[q..];
    var last := |pm| - 1;
    forall i, j | 0 <= i < j < |r| ensures KeyLess(r[i].key, r[j].key) {
      SplicedAt(parent, p, q, pm, i);
      SplicedAt(parent, p, q, pm, j);
      if i < p <= j < p + |pm| {
        LeLess(parent[i].key, parent[p - 1].key, pm[0].key);
        LeLess(parent[i].key, pm[0].key, pm[j - p].key);
      } else if p <= i < p + |pm| && p + |pm| <= j {
        LeLess(pm[i - p].key, pm[last].key, parent[j - |pm| + (q - p)].key);
      }
    }
  }

  /** A linked run that ends at the same separator and starts above the previous one can stand
      in for slots p..q. */
  lemma SpliceLinked(parent: seq<Item>, kids: seq<Kid>, p: int, q: int, pm: seq<Item>, mid: seq<Kid>)
    requires Linked(parent, kids) && 0 <= p < q <= |kids|
    requires Linked(pm, mid) && mid != []
    requires pm[|pm| - 1].key == parent[q - 1].key
    requires p > 0 ==> KeyLess(parent[p - 1].key, pm[0].key) && After(parent[p - 1].key, mid[0].items)
    ensures Linked(parent[..p] + pm + parent[q..], kids[..p] + mid + kids[q..])
  {
    hide KeyLess, Ordered, UpTo, After, Ref;
    SplicedOrdered(parent, p, q, pm);
    var r, k := parent[..p] + pm + parent[q..], kids[..p] + mid + kids[q..];
    forall i | 0 <= i < |k|
      ensures r[i].val == Ref(k[i].bnr) && Ordered(k[i].items) && UpTo(k[i].items, r[i].key)
      ensures i > 0 ==> After(r[i - 1].key, k[i].items)
    {
      SplicedLink(parent, kids, p, q, pm, mid, i);
    }
  }

  lemma SplicedLink(parent: seq<Item>, kids: seq<Kid>, p: int, q: int, pm: seq<Item>, mid: seq<Kid>, i: int)
    requires Linked(parent, kids) && 0 <= p < q <= |kids|
    requires Linked(pm, mid) && mid != []
    requires pm[|pm| - 1].key == parent[q - 1].key
    requires p > 0 ==> After(parent[p - 1].key, mid[0].items)
    requires 0 <= i < |kids| - (q - p) + |mid|
    ensures var r, k := parent[..p] + pm + parent[q..], kids[..p] + mid + kids[q..];
            && r[i].val == Ref(k[i].bnr) && Ordered(k[i].items) && UpTo(k[i].items, r[i].key)
            && (i > 0 ==> After(r[i - 1].key, k[i].items))
  {
    hide KeyLess, Ordered, UpTo, After, Ref, Linked;
    LinkedSizes(parent, kids);
    LinkedSizes(pm, mid);
    SplicedAt(parent, p, q, pm, i);
    SplicedAt(kids, p, q, mid, i);
    if i > 0 {
      SplicedAt(parent, p, q, pm, i - 1);
    }
    if i < p {
      LinkedAt(parent, kids, i);
    } else if i < p + |mid| {
      LinkedAt(pm, mid, i - p);
    } else {
      LinkedAt(parent, kids, i - |mid| + (q - p));
    }
  }

  lemma LinkedAt(parent: seq<Item>, kids: seq<Kid>, i: int)
    requires Linked(parent, kids) && 0 <= i < |kids|
    ensures |parent| == |kids|
    ensures parent[i].val == Ref(kids[i].bnr) && Ordered(kids[i].items)
    ensures UpTo(kids[i].items, parent[i].key)
    ensures i > 0 ==> After(parent[i - 1].key, kids[i].items)
  {
  }

  // ---- refill ----

  /** The parent after a refill left `left` and `right` in the two children, or `left` in the
      remaining child when the sibling was emptied. */
  function RefillParent(parent: seq<Item>, btPos: int, sibPos: int, btBnr: nat, bt: seq<Item>, sib: seq<Item>): seq<Item>
    requires 0 <= btPos < |parent| && 0 <= sibPos < |parent| && bt != []
  {
    if sib != [] then
      var pos, left := if btPos < sibPos then btPos else sibPos, if btPos < sibPos then bt else sib;
      parent[pos := Item(left[|left| - 1].key, parent[pos].val)]
    else if btPos < sibPos then
      RemoveRun(parent[sibPos := Item(parent[sibPos].key, Ref(btBnr))], btPos, 1)
    else
      RemoveRun(parent, sibPos, 1)
  }

  /** The children after a refill. */
  function RefillKids(kids: seq<Kid>, btPos: int, sibPos: int, bt: seq<Item>, sib: seq<Item>): seq<Kid>
    requires 0 <= btPos < |kids| && 0 <= sibPos < |kids|
  {
    var k := kids[btPos := Kid(kids[btPos].bnr, bt)];
    if sib != [] then k[sibPos := Kid(kids[sibPos].bnr, sib)]
    else RemoveRun(k, sibPos, 1)
  }

  lemma TwoNeighbours(parent: seq<Item>, kids: seq<Kid>, p: int)
    requires Linked(parent, kids) && 0 <= p && p + 1 < |kids|
    ensures Ordered(kids[p].items + kids[p + 1].items)
    ensures UpTo(kids[p].items + kids[p + 1].items, parent[p + 1].key)
    ensures p > 0 ==> After(parent[p - 1].key, kids[p].items + kids[p + 1].items)
    ensures KeyLess(parent[p].key, parent[p + 1].key)
  {
    hide KeyLess;
    var l, r := kids[p].items, kids[p + 1].items;
    JoinOrdered(l, parent[p].key, r);
    UpToWeaken(l, parent[p].key, parent[p + 1].key);
    if p > 0 {
      AfterWeaken(parent[p - 1].key, parent[p].key, r);
    }
  }

  /** Balancing: the items of two neighbours cut at another place, the left separator moved. */
  lemma {:induction false} BalanceKeepsTree(parent: seq<Item>, kids: seq<Kid>, p: int, l: seq<Item>, r: seq<Item>)
    requires Linked(parent, kids) && 0 <= p && p + 1 < |kids|
    requires l + r == kids[p].items + kids[p + 1].items && l != [] && r != []
    ensures var pm := [Item(l[|l| - 1].key, parent[p].val), parent[p + 1]];
            var mid := [Kid(kids[p].bnr, l), Kid(kids[p + 1].bnr, r)];
            && Linked(parent[..p] + pm + parent[p + 2..], kids[..p] + mid + kids[p + 2..])
            && InOrder(kids[..p] + mid + kids[p + 2..]) == InOrder(kids)
  {
    hide KeyLess, Ref, InOrder;
    var all := l + r;
    var sep := parent[p + 1].key;
    TwoNeighbours(parent, kids, p);
    CutOrdered(all, l, r);
    assert all[..|l|] == l && all[|l|..] == r;
    CutUpTo(all, |l|, sep);
    var pm := [Item(l[|l| - 1].key, parent[p].val), parent[p + 1]];
    var mid := [Kid(kids[p].bnr, l), Kid(kids[p + 1].bnr, r)];
    assert KeyLess(l[|l| - 1].key, r[0].key);
    LeLess(l[|l| - 1].key, r[0].key, sep);
    assert Linked(pm, mid);
    if p > 0 {
      CutAfter(parent[p - 1].key, all, |l|);
    }
    SpliceLinked(parent, kids, p, p + 2, pm, mid);
    assert kids[p..p + 2] == [kids[p], kids[p + 1]];
    InOrderTwo(kids[p], kids[p + 1]);
    InOrderTwo(mid[0], mid[1]);
    InOrderReplaced(kids, p, p + 2, mid);
  }

  /** Draining: both neighbours' items under the greater separator and one of the numbers. */
  lemma {:induction false} DrainKeepsTree(parent: seq<Item>, kids: seq<Kid>, p: int, bnr: nat)
    requires Linked(parent, kids) && 0 <= p && p + 1 < |kids|
    ensures var pm := [Item(parent[p + 1].key, Ref(bnr))];
            var mid := [Kid(bnr, kids[p].items + kids[p + 1].items)];
            && Linked(parent[..p] + pm + parent[p + 2..], kids[..p] + mid + kids[p + 2..])
            && InOrder(kids[..p] + mid + kids[p + 2..]) == InOrder(kids)
  {
    hide KeyLess, Ref, InOrder;
    TwoNeighbours(parent, kids, p);
    var pm := [Item(parent[p + 1].key, Ref(bnr))];
    var mid := [Kid(bnr, kids[p].items + kids[p + 1].items)];
    assert Linked(pm, mid);
    if p > 0 {
      assert KeyLess(parent[p - 1].key, parent[p + 1].key);
    }
    SpliceLinked(parent, kids, p, p + 2, pm, mid);
    assert kids[p..p + 2] == [kids[p], kids[p + 1]];
    InOrderTwo(kids[p], kids[p + 1]);
    InOrderOne(mid[0]);
    InOrderReplaced(kids, p, p + 2, mid);
  }

  /** The two blocks after move_items ran between neighbours, whichever side is refilled. */
  function RefilledBt(bt: seq<Item>, sib: seq<Item>, srcFirst: bool, n: int): seq<Item>
    requires 0 <= n <= |sib|
  {
    Joined(bt, Moved(sib, srcFirst, n), srcFirst)
  }

  /** move_items conserves: read left to right, the two blocks hold what they held. */
  lemma MoveConserves(dst: seq<Item>, src: seq<Item>, srcFirst: bool, n: int)
    requires 0 <= n <= |src|
    ensures var d, s := RefilledBt(dst, src, srcFirst, n), Kept(src, srcFirst, n);
            && (if srcFirst then d + s == dst + src else s + d == src + dst)
            && Used(d) + Used(s) == Used(dst) + Used(src)
  {
    hide Used;
    var m, s := Moved(src, srcFirst, n), Kept(src, srcFirst, n);
    if srcFirst {
      assert src == m + s;
      assert dst + m + s == dst + (m + s);
      UsedConcat(dst, m);
      UsedConcat(m, s);
    } else {
      assert src == s + m;
      assert s + (m + dst) == s + m + dst;
      UsedConcat(m, dst);
      UsedConcat(s, m);
    }
  }

  /** Refill keeps the tree: every item stays in order, separators stay right, and draining a
      right sibling leaves its greater separator in place, now naming the remaining block. */
  lemma {:induction false} RefillKeepsTree(parent: seq<Item>, kids: seq<Kid>, btPos: int, sibPos: int, n: int)
    requires Linked(parent, kids) && 0 <= btPos < |kids| && 0 <= sibPos < |kids|
    requires sibPos == btPos + 1 || sibPos == btPos - 1
    requires 0 < n <= |kids[sibPos].items|
    ensures var bt := RefilledBt(kids[btPos].items, kids[sibPos].items, btPos < sibPos, n);
            var sib := Kept(kids[sibPos].items, btPos < sibPos, n);
            && bt != []
            && Linked(RefillParent(parent, btPos, sibPos, kids[btPos].bnr, bt, sib),
                      RefillKids(kids, btPos, sibPos, bt, sib))
            && InOrder(RefillKids(kids, btPos, sibPos, bt, sib)) == InOrder(kids)
  {
    hide KeyLess, Ref, InOrder, Ordered, UpTo, After, Linked, RefillParent, RefillKids, RefilledBt, Kept;
    var b, s, first := kids[btPos].items, kids[sibPos].items, btPos < sibPos;
    var bt, sib := RefilledBt(b, s, first, n), Kept(s, first, n);
    var p := if first then btPos else sibPos;
    MoveConserves(b, s, first, n);
    RefilledNonEmpty(b, s, first, n);
    LinkedSizes(parent, kids);
    if sib != [] {
      BalanceKeepsTree(parent, kids, p, if first then bt else sib, if first then sib else bt);
      RefillBalances(parent, kids, btPos, sibPos, bt, sib);
    } else {
      assert bt + sib == bt && sib + bt == bt;
      DrainKeepsTree(parent, kids, p, kids[btPos].bnr);
      RefillDrains(parent, kids, btPos, sibPos, bt);
    }
  }

  lemma LinkedSizes(parent: seq<Item>, kids: seq<Kid>)
    requires Linked(parent, kids)
    ensures |parent| == |kids|
    ensures forall i :: 0 <= i < |kids| ==> parent[i].val == Ref(kids[i].bnr)
  {
  }

  lemma RefilledNonEmpty(bt: seq<Item>, sib: seq<Item>, srcFirst: bool, n: int)
    requires 0 < n <= |sib|
    ensures RefilledBt(bt, sib, srcFirst, n) != []
  {
  }

  /** Balancing only rewrites the key of the left parent item. */
  lemma RefillBalances(parent: seq<Item>, kids: seq<Kid>, btPos: int, sibPos: int, bt: seq<Item>, sib: seq<Item>)
    requires |parent| == |kids| && 0 <= btPos < |kids| && 0 <= sibPos < |kids|
    requires sibPos == btPos + 1 || sibPos == btPos - 1
    requires bt != [] && sib != []
    ensures var p, l, r := if btPos < sibPos then btPos else sibPos,
                           if btPos < sibPos then bt else sib, if btPos < sibPos then sib else bt;
            && RefillParent(parent, btPos, sibPos, kids[btPos].bnr, bt, sib) ==
               parent[..p] + [Item(l[|l| - 1].key, parent[p].val), parent[p + 1]] + parent[p + 2..]
            && RefillKids(kids, btPos, sibPos, bt, sib) ==
               kids[..p] + [Kid(kids[p].bnr, l), Kid(kids[p + 1].bnr, r)] + kids[p + 2..]
  {
    if btPos < sibPos {
      UpdateOne(parent, btPos, Item(bt[|bt| - 1].key, parent[btPos].val));
      UpdateTwo(kids, btPos, Kid(kids[btPos].bnr, bt), Kid(kids[sibPos].bnr, sib));
    } else {
      UpdateOne(parent, sibPos, Item(sib[|sib| - 1].key, parent[sibPos].val));
      UpdateTwo(kids, sibPos, Kid(kids[sibPos].bnr, sib), Kid(kids[btPos].bnr, bt));
    }
  }

  /** Draining leaves one child and the greater of the two separators. */
  lemma RefillDrains(parent: seq<Item>, kids: seq<Kid>, btPos: int, sibPos: int, bt: seq<Item>)
    requires |parent| == |kids| && 0 <= btPos < |kids| && 0 <= sibPos < |kids|
    requires sibPos == btPos + 1 || sibPos == btPos - 1
    requires bt != [] && parent[btPos].val == Ref(kids[btPos].bnr)
    ensures var p, bnr := if btPos < sibPos then btPos else sibPos, kids[btPos].bnr;
            && RefillParent(parent, btPos, sibPos, bnr, bt, []) ==
               parent[..p] + [Item(parent[p + 1].key, Ref(bnr))] + parent[p + 2..]
            && RefillKids(kids, btPos, sibPos, bt, []) == kids[..p] + [Kid(bnr, bt)] + kids[p + 2..]
  {
    hide Ref;
    var bnr := kids[btPos].bnr;
    if btPos < sibPos {
      DropFirst(parent, btPos, Item(parent[sibPos].key, Ref(bnr)));
      var k := kids[btPos := Kid(bnr, bt)];
      assert RemoveRun(k, sibPos, 1) == kids[..btPos] + [Kid(bnr, bt)] + kids[btPos + 2..];
    } else {
      assert parent[btPos] == Item(parent[btPos].key, Ref(bnr));
      assert RemoveRun(parent, sibPos, 1) == parent[..sibPos] + [parent[btPos]] + parent[sibPos + 2..];
      DropFirst(kids, sibPos, Kid(bnr, bt));
    }
  }

  lemma UpdateOne<T>(s: seq<T>, p: int, x: T)
    requires 0 <= p && p + 1 < |s|
    ensures s[p := x] == s[..p] + [x, s[p + 1]] + s[p + 2..]
  {
  }

  lemma UpdateTwo<T>(s: seq<T>, p: int, x: T, y: T)
    requires 0 <= p && p + 1 < |s|
    ensures s[p := x][p + 1 := y] == s[..p] + [x, y] + s[p + 2..]
    ensures s[p + 1 := y][p := x] == s[..p] + [x, y] + s[p + 2..]
  {
  }

  lemma DropFirst<T>(s: seq<T>, p: int, x: T)
    requires 0 <= p && p + 1 < |s|
    ensures RemoveRun(s[p + 1 := x], p, 1) == s[..p] + [x] + s[p + 2..]
  {
  }
}
