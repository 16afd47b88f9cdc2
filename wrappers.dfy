/** Optional values, and facts about sequences the drivers use. */
module Wrappers {
  /** Python's None, or a value. */
  datatype Option<+T> = None | Some(value: T)

  /** Concatenation regroups freely; stated once so that long blocks of
      code are not compared element by element. */
  lemma AppendAssoc<T>(a: seq<T>, b: seq<T>, c: seq<T>)
    ensures a + (b + c) == a + b + c
  {
  }

  /** Moving the first of the items still to come to the items done. */
  lemma MoveFirst<T>(all: seq<T>, done: seq<T>, pending: seq<T>)
    requires all == done + pending && pending != []
    ensures all == (done + [pending[0]]) + pending[1..]
  {
    assert pending == [pending[0]] + pending[1..];
  }

  /** Cutting after i and then before j - i is cutting before j and then
      after i. */
  lemma SliceOfSlice<T>(s: seq<T>, i: nat, j: nat)
    requires i <= j <= |s|
    ensures s[i..][..j - i] == s[..j][i..]
  {
  }

  /** The items before a new last item are the old ones. */
  lemma PrefixOfSnoc<T>(s: seq<T>, x: T)
    ensures (s + [x])[..|s|] == s && (s + [x])[|s|] == x
  {
  }
}
