/** The sort that sort_r hands to the C library: any stable or unstable sort that
    permutes the elements and orders them by the comparator will do. */
module Sorting {

  ghost predicate StrictWeak(less: (int, int) -> bool)
  {
    && (forall x, y :: less(x, y) ==> !less(y, x))
    && (forall x, y, z :: less(x, y) ==> less(x, z) || less(z, y))
  }

  lemma Compare(less: (int, int) -> bool, x: int, y: int, z: int)
    requires StrictWeak(less) && less(x, y)
    ensures !less(y, x)
    ensures less(x, z) || less(z, y)
  {
  }

  ghost predicate SortedBy(less: (int, int) -> bool, s: seq<int>)
  {
    forall i, j :: 0 <= i < j < |s| ==> !less(s[j], s[i])
  }

  function Insert(less: (int, int) -> bool, x: int, s: seq<int>): (r: seq<int>)
    ensures multiset(r) == multiset(s) + multiset{x}
  {
    if s == [] then [x]
    else if less(x, s[0]) then [x] + s
    else
      assert s == [s[0]] + s[1..];
      [s[0]] + Insert(less, x, s[1..])
  }

  function Sort(less: (int, int) -> bool, s: seq<int>): (r: seq<int>)
    ensures multiset(r) == multiset(s)
    ensures |r| == |s|
  {
    if s == [] then []
    else
      assert s == [s[0]] + s[1..];
      var r := Insert(less, s[0], Sort(less, s[1..]));
      assert |multiset(r)| == |r|;
      r
  }

  lemma {:induction false} InsertSorts(less: (int, int) -> bool, x: int, s: seq<int>)
    requires StrictWeak(less) && SortedBy(less, s)
    ensures SortedBy(less, Insert(less, x, s))
  {
    if s != [] && !less(x, s[0]) {
      InsertSorts(less, x, s[1..]);
      var t := Insert(less, x, s[1..]);
      forall j | 0 <= j < |t| ensures !less(t[j], s[0]) {
        assert t[j] in multiset(t);
        assert t[j] == x || t[j] in s[1..];
      }
    } else if s != [] {
      forall j | 0 <= j < |s| ensures !less(s[j], x) {
        Compare(less, x, s[0], s[j]);
      }
    }
  }

  lemma {:induction false} SortSorts(less: (int, int) -> bool, s: seq<int>)
    requires StrictWeak(less)
    ensures SortedBy(less, Sort(less, s))
  {
    if s != [] {
      SortSorts(less, s[1..]);
      InsertSorts(less, s[0], Sort(less, s[1..]));
    }
  }

  lemma PermutationMembers<T>(a: seq<T>, b: seq<T>)
    requires multiset(a) == multiset(b)
    ensures |a| == |b|
    ensures forall x :: x in a <==> x in b
  {
    assert |multiset(a)| == |a| && |multiset(b)| == |b|;
    forall x ensures x in a <==> x in b {
      assert x in a <==> x in multiset(a);
    }
  }

  ghost predicate Distinct<T>(s: seq<T>)
  {
    forall i, j :: 0 <= i < j < |s| ==> s[i] != s[j]
  }

  lemma {:induction false} DistinctOnce<T>(s: seq<T>)
    requires Distinct(s)
    ensures forall x :: multiset(s)[x] <= 1
  {
    if s != [] {
      assert s == [s[0]] + s[1..];
      DistinctOnce(s[1..]);
      assert s[0] !in s[1..];
    }
  }

  lemma {:induction false} OnceDistinct<T>(s: seq<T>)
    requires forall x :: multiset(s)[x] <= 1
    ensures Distinct(s)
  {
    if s != [] {
      assert s == [s[0]] + s[1..];
      assert forall x :: multiset(s)[x] == multiset{s[0]}[x] + multiset(s[1..])[x];
      OnceDistinct(s[1..]);
      assert multiset(s[1..])[s[0]] == 0;
      assert s[0] !in s[1..];
    }
  }

  lemma PermutationDistinct<T>(a: seq<T>, b: seq<T>)
    requires multiset(a) == multiset(b) && Distinct(a)
    ensures Distinct(b)
  {
    DistinctOnce(a);
    OnceDistinct(b);
  }

  /** Take one occurrence of x out of b. */
  lemma RemoveOne<T>(b: seq<T>, x: T) returns (j: nat, rest: seq<T>)
    requires x in multiset(b)
    ensures j < |b| && b[j] == x && rest == b[..j] + b[j + 1..]
    ensures b == b[..j] + ([x] + b[j + 1..])
    ensures multiset(b) == multiset(rest) + multiset{x}
  {
    j :| 0 <= j < |b| && b[j] == x;
    rest := b[..j] + b[j + 1..];
    assert b == b[..j] + ([x] + b[j + 1..]);
    assert multiset(b) == multiset(b[..j]) + multiset([x] + b[j + 1..]);
  }

  /** Permutations that start with x stay permutations of each other without it. */
  lemma CancelOne<T>(a: seq<T>, b: seq<T>) returns (j: nat, rest: seq<T>)
    requires multiset(a) == multiset(b) && a != []
    ensures j < |b| && b[j] == a[0] && rest == b[..j] + b[j + 1..]
    ensures b == b[..j] + ([a[0]] + b[j + 1..])
    ensures multiset(rest) == multiset(a[1..])
  {
    assert a == [a[0]] + a[1..];
    j, rest := RemoveOne(b, a[0]);
    forall y ensures multiset(rest)[y] == multiset(a[1..])[y] {
      assert multiset(a)[y] == multiset(b)[y];
    }
  }

  function Map<A, B>(f: A -> B, s: seq<A>): (r: seq<B>)
    ensures |r| == |s|
    ensures forall i :: 0 <= i < |s| ==> r[i] == f(s[i])
  {
    seq(|s|, i requires 0 <= i < |s| => f(s[i]))
  }

  lemma MapConcat<A, B>(f: A -> B, a: seq<A>, b: seq<A>)
    ensures Map(f, a + b) == Map(f, a) + Map(f, b)
  {
  }

  /** Mapping a permutation gives a permutation. */
  lemma {:induction false} MapPermutation<A, B>(f: A -> B, a: seq<A>, b: seq<A>)
    requires multiset(a) == multiset(b)
    ensures multiset(Map(f, a)) == multiset(Map(f, b))
    decreases |a|
  {
    if a == [] {
      assert |multiset(b)| == 0;
      assert b == [];
    } else {
      var j, rest := CancelOne(a, b);
      MapPermutation(f, a[1..], rest);
      MapConcat(f, [a[0]], a[1..]);
      MapConcat(f, b[..j], b[j + 1..]);
      MapConcat(f, [a[0]], b[j + 1..]);
      MapConcat(f, b[..j], [a[0]] + b[j + 1..]);
      assert a == [a[0]] + a[1..];
    }
  }
}
