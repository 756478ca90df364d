/** A btree block seen from outside: any run of its operations answers like a finite map, and the
    block holds the map's entries in key order (shared/btree.c:387-455, 546-574). */
module BlockMap {
  import opened Keys
  import opened Layout
  import opened Edits
  import opened BtreeBlock
  import opened Compacting

  type Entries = map<Key, seq<Byte>>

  // ---- the map a sequence of items stands for ----

  function MapOf(items: seq<Item>): Entries {
    if items == [] then map[]
    else
      var n := |items| - 1;
      MapOf(items[..n])[items[n].key := items[n].val]
  }

  lemma {:induction false} MapOfMeaning(items: seq<Item>, key: Key)
    requires Ordered(items)
    ensures key in MapOf(items) <==> exists i :: 0 <= i < |items| && items[i].key == key
    ensures forall i :: 0 <= i < |items| && items[i].key == key ==>
              key in MapOf(items) && MapOf(items)[key] == items[i].val
  {
    hide KeyLess;
    if items != [] {
      var n := |items| - 1;
      assert forall i, j :: 0 <= i < j < n ==> items[..n][i] == items[i] && items[..n][j] == items[j];
      MapOfMeaning(items[..n], key);
      if items[n].key == key {
        forall i | 0 <= i < n
          ensures items[i].key != key
        {
          assert KeyLess(items[i].key, items[n].key);
          NotLessItself(key);
        }
      } else {
        assert forall i :: 0 <= i < n ==> items[..n][i] == items[i];
      }
    }
  }

  lemma NotLessItself(key: Key)
    ensures !KeyLess(key, key)
  {
    CmpZeroIffEqual(key, key);
  }

  lemma InsertIsUpdate(items: seq<Item>, pos: int, it: Item)
    requires Ordered(items) && Splits(items, it.key, pos)
    ensures MapOf(InsertRun(items, pos, [it])) == MapOf(items)[it.key := it.val]
  {
    hide KeyLess, MapOf;
    OrderedInsert(items, pos, it);
    var after := InsertRun(items, pos, [it]);
    var m, m1 := MapOf(items)[it.key := it.val], MapOf(after);
    AbsentKey(items, it.key, pos);
    forall key: Key
      ensures key in m <==> key in m1
      ensures key in m ==> m[key] == m1[key]
    {
      MapOfMeaning(items, key);
      MapOfMeaning(after, key);
      if key == it.key {
        assert after[pos].key == key;
      } else if i :| 0 <= i < |items| && items[i].key == key {
        var j := if i < pos then i else i + 1;
        assert after[j] == items[i];
      }
    }
  }

  lemma RemoveIsDelete(items: seq<Item>, pos: int)
    requires Ordered(items) && 0 <= pos < |items|
    ensures MapOf(RemoveRun(items, pos, 1)) == MapOf(items) - {items[pos].key}
  {
    hide KeyLess, MapOf, Ordered, RemoveRun;
    OrderedRemove(items, pos, 1);
    var after := RemoveRun(items, pos, 1);
    var gone := items[pos].key;
    var m, m1 := MapOf(items) - {gone}, MapOf(after);
    forall key: Key
      ensures key in m <==> key in m1
      ensures key in m ==> m[key] == m1[key]
    {
      MapOfMeaning(items, key);
      MapOfMeaning(after, key);
      if key in m {
        var i :| 0 <= i < |items| && items[i].key == key;
        StillThere(items, pos, i);
      } else if key in m1 {
        var i :| 0 <= i < |after| && after[i].key == key;
        NotRemoved(items, pos, i);
      }
    }
  }

  lemma StillThere(items: seq<Item>, pos: int, i: int)
    requires 0 <= pos < |items| && 0 <= i < |items| && i != pos
    ensures RemoveRun(items, pos, 1)[if i < pos then i else i - 1] == items[i]
  {
  }

  /** What is left has other keys than what was taken out. */
  lemma NotRemoved(items: seq<Item>, pos: int, i: int)
    requires Ordered(items) && 0 <= pos < |items| && 0 <= i < |items| - 1
    ensures RemoveRun(items, pos, 1)[i] == items[if i < pos then i else i + 1]
    ensures RemoveRun(items, pos, 1)[i].key != items[pos].key
  {
    hide KeyLess, Ordered;
    DistinctKeys(items, pos, if i < pos then i else i + 1);
  }

  lemma DistinctKeys(items: seq<Item>, i: int, j: int)
    requires Ordered(items) && 0 <= i < |items| && 0 <= j < |items| && i != j
    ensures items[i].key != items[j].key
  {
    NotLessItself(items[i].key);
  }

  /** The block's order of items is the map's key order and nothing else: two ordered sequences with
      the same entries are the same. */
  lemma {:induction false} OrderIsTheMaps(a: seq<Item>, b: seq<Item>)
    requires Ordered(a) && Ordered(b) && MapOf(a) == MapOf(b)
    ensures a == b
    decreases |a|
  {
    hide KeyLess, MapOf;
    if a == [] {
      if b != [] {
        MapOfMeaning(b, b[0].key);
        MapOfMeaning(a, b[0].key);
      }
    } else {
      MapOfMeaning(a, a[0].key);
      MapOfMeaning(b, a[0].key);
      assert b != [];
      SameLast(a, b);
      var n, m := |a| - 1, |b| - 1;
      assert a[..n] == RemoveRun(a, n, 1) && b[..m] == RemoveRun(b, m, 1);
      RemoveIsDelete(a, n);
      RemoveIsDelete(b, m);
      OrderedRemove(a, n, 1);
      OrderedRemove(b, m, 1);
      OrderIsTheMaps(a[..n], b[..m]);
      assert a == a[..n] + [a[n]] && b == b[..m] + [b[m]];
    }
  }

  lemma SameLast(a: seq<Item>, b: seq<Item>)
    requires Ordered(a) && Ordered(b) && MapOf(a) == MapOf(b) && a != [] && b != []
    ensures a[|a| - 1] == b[|b| - 1]
  {
    hide KeyLess, MapOf;
    var n, m := |a| - 1, |b| - 1;
    MapOfMeaning(a, a[n].key);
    MapOfMeaning(b, a[n].key);
    MapOfMeaning(a, b[m].key);
    MapOfMeaning(b, b[m].key);
    var i :| 0 <= i < |b| && b[i].key == a[n].key;
    var j :| 0 <= j < |a| && a[j].key == b[m].key;
    if i < m {
      assert KeyLess(b[i].key, b[m].key);
      if j < n {
        assert KeyLess(a[j].key, a[n].key);
        CmpAntisymmetric(a[j].key, a[n].key);
        NotBothWays(a[j].key, a[n].key);
      } else {
        NotLessItself(a[n].key);
      }
    }
  }

  lemma NotBothWays(a: Key, b: Key)
    ensures !(KeyLess(a, b) && KeyLess(b, a))
  {
    CmpAntisymmetric(a, b);
  }

  // ---- how much room a map takes ----

  function Cost(key: Key, val: seq<Byte>): int {
    TotalSize(Item(key, val))
  }

  /** The bytes all entries take, in any order. */
  ghost function Weight(m: Entries): int
    decreases |m|
  {
    if m == map[] then 0
    else
      var key :| key in m;
      assert |m - {key}| < |m| by { Smaller(m, key); }
      Cost(key, m[key]) + Weight(m - {key})
  }

  lemma Smaller(m: Entries, key: Key)
    requires key in m
    ensures |m - {key}| == |m| - 1
  {
    var r := m - {key};
    assert r.Keys == m.Keys - {key};
    assert |r| == |r.Keys| && |m| == |m.Keys|;
  }

  /** Any entry may be taken out first. */
  lemma {:induction false} WeightWithout(m: Entries, key: Key)
    requires key in m
    ensures Weight(m) == Cost(key, m[key]) + Weight(m - {key})
    decreases |m|
  {
    var first :| first in m && Weight(m) == Cost(first, m[first]) + Weight(m - {first});
    if first != key {
      Smaller(m, first);
      Smaller(m, key);
      WeightWithout(m - {first}, key);
      WeightWithout(m - {key}, first);
      assert m - {first} - {key} == m - {key} - {first};
    }
  }

  lemma WeightWith(m: Entries, key: Key, val: seq<Byte>)
    requires key !in m
    ensures Weight(m[key := val]) == Weight(m) + Cost(key, val)
  {
    WeightWithout(m[key := val], key);
    assert m[key := val] - {key} == m;
  }

  /** used_size is the room the block's map takes. */
  lemma {:induction false} UsedIsWeight(items: seq<Item>)
    requires Ordered(items)
    ensures Used(items) == Weight(MapOf(items))
    decreases |items|
  {
    hide KeyLess, MapOf, Used, Weight;
    if items == [] {
      assert MapOf(items) == map[] && Weight(map[]) == 0 && Used(items) == 0 by { NothingWeighs(); }
    } else {
      var n := |items| - 1;
      assert items[..n] == RemoveRun(items, n, 1);
      OrderedRemove(items, n, 1);
      RemoveIsDelete(items, n);
      UsedIsWeight(items[..n]);
      MapOfMeaning(items, items[n].key);
      WeightWithout(MapOf(items), items[n].key);
      assert items == items[..n] + [items[n]];
      UsedConcat(items[..n], [items[n]]);
      assert Used([items[n]]) == TotalSize(items[n]) by { OneUses(items[n]); }
    }
  }

  lemma NothingWeighs()
    ensures MapOf([]) == map[] && Weight(map[]) == 0 && Used([]) == 0
  {
  }

  lemma OneUses(it: Item)
    ensures Used([it]) == TotalSize(it)
  {
    assert SumSizes([it][1..]) == 0;
  }

  // ---- the operations on a map ----

  datatype Op =
    | Put(key: Key, val: seq<Byte>)
    | Remove(key: Key)
    | Get(key: Key, room: nat)
    | Pack

  datatype Answer = Fine | Exists | Missing | Invalid | Full | Copied(bytes: seq<Byte>)

  ghost function After(m: Entries, op: Op): Entries {
    match op
    case Put(key, val) =>
      if Insertable(Item(key, val)) && key !in m && Weight(m) + Cost(key, val) <= MAX_FREE then m[key := val]
      else m
    case Remove(key) => m - {key}
    case _ => m
  }

  ghost function Reply(m: Entries, op: Op): Answer {
    match op
    case Put(key, val) =>
      if !Insertable(Item(key, val)) then Invalid
      else if key in m then Exists
      else if Weight(m) + Cost(key, val) > MAX_FREE then Full
      else Fine
    case Remove(key) => if key in m then Fine else Missing
    case Get(key, room) => if key in m then Copied(m[key][..Min(room, |m[key]|)]) else Missing
    case Pack => Fine
  }

  ghost function AfterAll(m: Entries, ops: seq<Op>): Entries {
    if ops == [] then m else After(AfterAll(m, ops[..|ops| - 1]), ops[|ops| - 1])
  }

  ghost function Replies(m: Entries, ops: seq<Op>): seq<Answer> {
    if ops == [] then []
    else
      var n := |ops| - 1;
      Replies(m, ops[..n]) + [Reply(AfterAll(m, ops[..n]), ops[n])]
  }

  // ---- one operation on the block ----

  /** An insert by a caller that checks for room first and compacts when the gap is too small, as
      insert_item asks of its callers. */
  method DoPut(bt: Block, key: Key, val: seq<Byte>) returns (a: Answer)
    requires bt.Valid() && Ordered(bt.items)
    modifies bt, bt.buf
    ensures bt.Valid() && Ordered(bt.items)
    ensures bt.bnr == old(bt.bnr) && bt.level == old(bt.level)
    ensures MapOf(bt.items) == After(MapOf(old(bt.items)), Put(key, val))
    ensures a == Reply(MapOf(old(bt.items)), Put(key, val))
    ensures a != Fine ==> bt.items == old(bt.items)
  {
    hide Laid, Ordered, Off, InsertRun, MapOf, KeyLess, Weight, Used, Hole;
    ghost var items := bt.items;
    LaidBounds(bt.nrItems, bt.totalFree, bt.availFree, bt.buf[..], items);
    TotalCountsHoles(bt.nrItems, bt.totalFree, bt.availFree, bt.buf[..], items);
    UsedIsWeight(items);
    MapOfMeaning(items, key);
    var size := OFF_SIZE + ITEM_HEADER + |key| + |val|;
    if 0 < |key| <= KEY_MAX && |val| <= VAL_MAX && size > bt.availFree {
      if size > bt.totalFree {
        var none := new Byte[0](_ => 0);
        var found := bt.Lookup(key, none);
        a := if found == ENOENT then Full else Exists;
        return;
      }
      Compact(bt);
    }
    var ret := bt.Insert(key, val);
    if ret == 0 {
      a := Fine;
      ghost var pos :| Splits(items, key, pos) && bt.items == InsertRun(items, pos, [Item(key, val)]);
      InsertIsUpdate(items, pos, Item(key, val));
      AbsentKey(items, key, pos);
    } else {
      a := if ret == EINVAL then Invalid else Exists;
    }
  }

  method DoRemove(bt: Block, key: Key) returns (a: Answer)
    requires bt.Valid() && Ordered(bt.items)
    modifies bt, bt.buf
    ensures bt.Valid() && Ordered(bt.items)
    ensures bt.bnr == old(bt.bnr) && bt.level == old(bt.level)
    ensures MapOf(bt.items) == After(MapOf(old(bt.items)), Remove(key))
    ensures a == Reply(MapOf(old(bt.items)), Remove(key))
    ensures a != Fine ==> bt.items == old(bt.items)
  {
    hide Laid, Ordered, Off, RemoveRun, MapOf, KeyLess, Weight, Used;
    ghost var items := bt.items;
    MapOfMeaning(items, key);
    var ret := bt.Delete(key);
    if ret == 0 {
      a := Fine;
      ghost var pos :| 0 <= pos < |items| && items[pos].key == key && bt.items == RemoveRun(items, pos, 1);
      RemoveIsDelete(items, pos);
    } else {
      a := Missing;
      assert MapOf(items) - {key} == MapOf(items);
    }
  }

  method DoGet(bt: Block, key: Key, room: nat) returns (a: Answer)
    requires bt.Valid() && Ordered(bt.items)
    ensures a == Reply(MapOf(bt.items), Get(key, room))
  {
    hide Laid, Ordered, Off, MapOf, KeyLess, Weight, Used;
    MapOfMeaning(bt.items, key);
    ghost var items := bt.items;
    LaidBounds(bt.nrItems, bt.totalFree, bt.availFree, bt.buf[..], items);
    var val := new Byte[room](_ => 0);
    var ret := bt.Lookup(key, val);
    if ret == ENOENT {
      a := Missing;
    } else {
      ghost var i :| 0 <= i < |items| && items[i].key == key
                     && ret == Min(val.Length, |items[i].val|) && val[..ret] == items[i].val[..ret];
      a := Copied(val[..ret]);
    }
  }

  method Do(bt: Block, op: Op) returns (a: Answer)
    requires bt.Valid() && Ordered(bt.items)
    modifies bt, bt.buf
    ensures bt.Valid() && Ordered(bt.items)
    ensures bt.bnr == old(bt.bnr) && bt.level == old(bt.level)
    ensures MapOf(bt.items) == After(MapOf(old(bt.items)), op)
    ensures a == Reply(MapOf(old(bt.items)), op)
  {
    match op
    case Put(key, val) => a := DoPut(bt, key, val);
    case Remove(key) => a := DoRemove(bt, key);
    case Get(key, room) => a := DoGet(bt, key, room);
    case Pack =>
      Compact(bt);
      a := Fine;
  }

  /** Any run on a freshly initialised block refines a run on the empty map: the same answers, and
      in the end the same entries, in key order. */
  method RunFromInit(bt: Block, level: Byte, ops: seq<Op>) returns (answers: seq<Answer>)
    requires bt.buf.Length == BLOCK_SIZE
    modifies bt, bt.buf
    ensures bt.Valid() && Ordered(bt.items)
    ensures MapOf(bt.items) == AfterAll(map[], ops)
    ensures answers == Replies(map[], ops)
  {
    hide MapOf, Ordered, After, Reply, Laid;
    bt.InitBlock(level);
    assert MapOf([]) == map[] by { NothingWeighs(); }
    answers := [];
    var i := 0;
    while i < |ops|
      invariant 0 <= i <= |ops|
      invariant bt.Valid() && Ordered(bt.items)
      invariant MapOf(bt.items) == AfterAll(map[], ops[..i])
      invariant answers == Replies(map[], ops[..i])
    {
      var a := Do(bt, ops[i]);
      assert ops[..i + 1][..i] == ops[..i];
      answers := answers + [a];
      i := i + 1;
    }
    assert ops[..i] == ops;
  }

  // ---- what the map specification promises ----

  lemma {:induction false} RunFits(ops: seq<Op>)
    ensures Weight(AfterAll(map[], ops)) <= MAX_FREE
    ensures forall key :: key in AfterAll(map[], ops) ==> Insertable(Item(key, AfterAll(map[], ops)[key]))
  {
    hide Weight;
    if ops == [] {
      NothingWeighs();
    } else {
      var n := |ops| - 1;
      RunFits(ops[..n]);
      var m := AfterAll(map[], ops[..n]);
      match ops[n] {
        case Put(key, val) =>
          if key !in m {
            WeightWith(m, key, val);
          }
        case Remove(key) =>
          if key in m {
            WeightWithout(m, key);
          } else {
            assert m - {key} == m;
          }
        case _ =>
      }
    }
  }
}
