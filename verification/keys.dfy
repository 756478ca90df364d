/** Variable-length big-endian keys and their comparison (shared/btree.c:159-168). */
module Keys {

  type Byte = x: int | 0 <= x < 256

  type Key = seq<Byte>

  function Min(x: int, y: int): (m: int)
  {
    if x < y then x else y
  }

  /** memcmp over bytes [i, n): the difference of the first bytes that differ, else 0. */
  function Memcmp(a: Key, b: Key, n: nat, i: nat): int
    requires i <= n <= |a| && n <= |b|
    decreases n - i
  {
    if i == n then 0
    else if a[i] != b[i] then a[i] - b[i]
    else Memcmp(a, b, n, i + 1)
  }

  /** The code's comparison.  The tie-break subtracts size_a from size_b, so a key
      compares GREATER than every longer key that it is a prefix of. */
  function CmpKeys(a: Key, b: Key): int
  {
    var m := Memcmp(a, b, Min(|a|, |b|), 0);
    if m != 0 then m else |b| - |a|
  }

  ghost predicate KeyLess(a: Key, b: Key)
  {
    CmpKeys(a, b) < 0
  }

  /** A key read as an endless string: `pad` stands for every byte past its end. */
  function At(a: Key, k: nat, pad: int): int
  {
    if k < |a| then a[k] else pad
  }

  /** `k` is the first place where the padded keys differ. */
  ghost predicate FirstDiff(a: Key, b: Key, k: nat, pad: int)
  {
    && (forall j: nat :: j < k ==> At(a, j, pad) == At(b, j, pad))
    && At(a, k, pad) != At(b, k, pad)
  }

  lemma MemcmpWitness(a: Key, b: Key, n: nat, i: nat) returns (k: nat)
    requires i <= n <= |a| && n <= |b|
    ensures i <= k <= n
    ensures forall j :: i <= j < k ==> a[j] == b[j]
    ensures if k == n then Memcmp(a, b, n, i) == 0
            else a[k] != b[k] && Memcmp(a, b, n, i) == (a[k] as int) - (b[k] as int)
    decreases n - i
  {
    if i == n || a[i] != b[i] {
      k := i;
    } else {
      k := MemcmpWitness(a, b, n, i + 1);
    }
  }

  /** Keys that are not the same differ somewhere once padded with a value no byte has. */
  lemma DiffExists(a: Key, b: Key, pad: int) returns (k: nat)
    requires a != b
    requires pad < 0 || pad > 255
    ensures FirstDiff(a, b, k, pad)
    ensures k <= Min(|a|, |b|)
    ensures k < Min(|a|, |b|) || k < |a| || k < |b|
  {
    k := MemcmpWitness(a, b, Min(|a|, |b|), 0);
    assert k == |a| == |b| ==> a == b;
  }

  /** The first padded difference decides the code's comparison: end-of-key counts as 256. */
  lemma CmpAtDiff(a: Key, b: Key, k: nat)
    requires FirstDiff(a, b, k, 256)
    ensures (CmpKeys(a, b) < 0) == (At(a, k, 256) < At(b, k, 256))
    ensures CmpKeys(a, b) != 0
  {
    var w := MemcmpWitness(a, b, Min(|a|, |b|), 0);
    assert w < k ==> At(a, w, 256) == At(b, w, 256);
  }

  /** Equal exactly on identical keys. */
  lemma CmpZeroIffEqual(a: Key, b: Key)
    ensures CmpKeys(a, b) == 0 <==> a == b
  {
    if a == b {
      var w := MemcmpWitness(a, b, Min(|a|, |b|), 0);
    } else {
      var k := DiffExists(a, b, 256);
      CmpAtDiff(a, b, k);
    }
  }

  /** Swapping the arguments swaps the sign. */
  lemma CmpAntisymmetric(a: Key, b: Key)
    ensures CmpKeys(a, b) < 0 <==> CmpKeys(b, a) > 0
    ensures CmpKeys(a, b) == 0 <==> CmpKeys(b, a) == 0
  {
    CmpZeroIffEqual(a, b);
    CmpZeroIffEqual(b, a);
    if a != b {
      var k := DiffExists(a, b, 256);
      assert FirstDiff(b, a, k, 256);
      CmpAtDiff(a, b, k);
      CmpAtDiff(b, a, k);
    }
  }

  lemma CmpTransitive(a: Key, b: Key, c: Key)
    requires CmpKeys(a, b) < 0 && CmpKeys(b, c) < 0
    ensures CmpKeys(a, c) < 0
  {
    CmpZeroIffEqual(a, b);
    CmpZeroIffEqual(b, c);
    var j := DiffExists(a, b, 256);
    var k := DiffExists(b, c, 256);
    CmpAtDiff(a, b, j);
    CmpAtDiff(b, c, k);
    var m := if j < k then j else k;
    assert FirstDiff(a, c, m, 256);
    CmpAtDiff(a, c, m);
  }

  /** A strict total order on all byte strings: exactly one of <, ==, > and < composes. */
  lemma CmpIsStrictTotalOrder(a: Key, b: Key, c: Key)
    ensures !KeyLess(a, a)
    ensures a == b || KeyLess(a, b) || KeyLess(b, a)
    ensures !(KeyLess(a, b) && KeyLess(b, a))
    ensures KeyLess(a, b) && KeyLess(b, c) ==> KeyLess(a, c)
  {
    CmpZeroIffEqual(a, a);
    CmpZeroIffEqual(a, b);
    CmpAntisymmetric(a, b);
    if KeyLess(a, b) && KeyLess(b, c) {
      CmpTransitive(a, b, c);
    }
  }

  /** What the comment above cmp_keys promises: a key is LESS than its proper extensions. */
  function DocumentedCmp(a: Key, b: Key): int
  {
    var m := Memcmp(a, b, Min(|a|, |b|), 0);
    if m != 0 then m else |a| - |b|
  }

  /** The code orders two keys as its comment says iff neither properly extends the other. */
  lemma CodeMatchesCommentIff(a: Key, b: Key)
    ensures ((CmpKeys(a, b) < 0) == (DocumentedCmp(a, b) < 0) &&
             (CmpKeys(a, b) > 0) == (DocumentedCmp(a, b) > 0))
            <==> !(a < b) && !(b < a)
  {
    var k := MemcmpWitness(a, b, Min(|a|, |b|), 0);
    if k == Min(|a|, |b|) {
      if |a| < |b| {
        assert a == b[..|a|];
      } else if |b| < |a| {
        assert b == a[..|b|];
      }
    }
  }

  /** The disagreement exists: a one-byte key against its two-byte extension. */
  lemma CodeContradictsComment()
    ensures CmpKeys([7], [7, 0]) > 0 && DocumentedCmp([7], [7, 0]) < 0
  {
    var a: Key, b: Key := [7], [7, 0];
    assert Memcmp(a, b, 1, 0) == Memcmp(a, b, 1, 1) == 0;
  }
}
