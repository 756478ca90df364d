/** Small helpers shared by the protocol models. */
module Options {
  datatype Option<T> = None | Some(value: T)
}

/** How often a value stands in a list. */
module Tally {
  function One(p: bool): nat {
    if p then 1 else 0
  }

  function Entries(ids: seq<nat>, x: nat): nat {
    if ids == [] then 0 else Entries(ids[..|ids| - 1], x) + One(ids[|ids| - 1] == x)
  }

  lemma {:induction false} EntriesFront(ids: seq<nat>, x: nat)
    requires ids != []
    ensures Entries(ids, x) == One(ids[0] == x) + Entries(ids[1..], x)
  {
    var n := |ids| - 1;
    if n > 0 {
      EntriesFront(ids[..n], x);
      assert ids[..n][1..] == ids[1..][..n - 1];
    } else {
      assert ids[..n] == [] && ids[1..] == [];
    }
  }

  lemma EntriesBack(ids: seq<nat>, y: nat, x: nat)
    ensures Entries(ids + [y], x) == Entries(ids, x) + One(y == x)
  {
    assert (ids + [y])[..|ids|] == ids;
  }

  lemma {:induction false} EntriesIn(ids: seq<nat>, x: nat)
    ensures Entries(ids, x) > 0 <==> x in ids
  {
    if ids != [] {
      EntriesIn(ids[..|ids| - 1], x);
      assert ids == ids[..|ids| - 1] + [ids[|ids| - 1]];
    }
  }

  lemma {:induction false} TwoEntries(ids: seq<nat>, j: nat, k: nat)
    requires j < k < |ids| && ids[j] == ids[k]
    ensures Entries(ids, ids[j]) >= 2
  {
    var n := |ids| - 1;
    if k < n {
      TwoEntries(ids[..n], j, k);
    } else {
      EntriesIn(ids[..n], ids[j]);
      assert ids[..n][j] == ids[j];
    }
  }
}
