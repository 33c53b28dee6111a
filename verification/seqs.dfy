/** The array operations the store applies to its collections: `filter`, the
    `map` that replaces an entry by id, and append; with the facts about them the
    reducer relies on. */
module Seqs {

  /** `xs` is `ys` with some entries left out and the rest in their order. */
  predicate IsSubsequence<T(==,!new)>(xs: seq<T>, ys: seq<T>)
    decreases |ys|
  {
    if ys == [] then xs == []
    else (xs != [] && xs[0] == ys[0] && IsSubsequence(xs[1..], ys[1..])) || IsSubsequence(xs, ys[1..])
  }

  /** `xs.filter(p)`: keeps each entry that satisfies `p`, with its multiplicity,
      in its original order. */
  function Filter<T(==,!new)>(p: T -> bool, xs: seq<T>): (r: seq<T>)
    ensures IsSubsequence(r, xs)
    ensures forall x :: multiset(r)[x] == if p(x) then multiset(xs)[x] else 0
    ensures forall x :: x in r <==> x in xs && p(x)
    ensures |r| <= |xs|
  {
    if xs == [] then []
    else
      assert xs == [xs[0]] + xs[1..];
      if p(xs[0]) then [xs[0]] + Filter(p, xs[1..]) else Filter(p, xs[1..])
  }

  lemma {:induction false} FilterAppend<T(!new)>(p: T -> bool, a: seq<T>, b: seq<T>)
    ensures Filter(p, a + b) == Filter(p, a) + Filter(p, b)
  {
    if a == [] {
      assert a + b == b;
    } else {
      assert a + b == [a[0]] + (a[1..] + b);
      FilterAppend(p, a[1..], b);
    }
  }

  /** Filtering a sequence with a known first entry. */
  lemma FilterCons<T(!new)>(p: T -> bool, x: T, xs: seq<T>)
    ensures Filter(p, [x] + xs) == (if p(x) then [x] else []) + Filter(p, xs)
  {
    assert ([x] + xs)[1..] == xs;
  }

  /** Two entries that the filter never keeps both can trade places in front
      of sequences it filters alike. */
  lemma FilterSwap<T(!new)>(p: T -> bool, a: T, b: T, xs: seq<T>, ys: seq<T>)
    requires Filter(p, xs) == Filter(p, [b] + ys)
    requires !(p(a) && p(b))
    ensures Filter(p, [a] + xs) == Filter(p, [b] + ([a] + ys))
  {
    FilterCons(p, a, xs);
    FilterCons(p, b, ys);
    FilterCons(p, b, [a] + ys);
    FilterCons(p, a, ys);
  }

  /** A filter that rejects nothing returns its input. */
  lemma {:induction false} FilterKeepsAll<T(!new)>(p: T -> bool, xs: seq<T>)
    requires forall x :: x in xs ==> p(x)
    ensures Filter(p, xs) == xs
  {
    if xs != [] {
      FilterKeepsAll(p, xs[1..]);
    }
  }

  /** Two tests that agree on every element select the same elements. */
  lemma {:induction false} FilterAgrees<T(!new)>(p: T -> bool, q: T -> bool, xs: seq<T>)
    requires forall x :: x in xs ==> p(x) == q(x)
    ensures Filter(p, xs) == Filter(q, xs)
    decreases |xs|
  {
    if xs != [] {
      assert forall x :: x in xs[1..] ==> x in xs;
      FilterAgrees(p, q, xs[1..]);
    }
  }

  /** A filter that accepts nothing returns the empty sequence. */
  lemma FilterKeepsNone<T(!new)>(p: T -> bool, xs: seq<T>)
    requires forall x :: x in xs ==> !p(x)
    ensures Filter(p, xs) == []
  {
  }

  /** `xs.map(y => key(y) === key(x) ? x : y)`: the update-by-id the reducer
      performs. Each entry carrying the key of `x` becomes `x`; every other
      entry stays where it was. */
  function ReplaceById<T>(xs: seq<T>, x: T, key: T -> int): (r: seq<T>)
    ensures |r| == |xs|
    ensures forall i :: 0 <= i < |xs| && key(xs[i]) == key(x) ==> r[i] == x
    ensures forall i :: 0 <= i < |xs| && key(xs[i]) != key(x) ==> r[i] == xs[i]
  {
    seq(|xs|, i requires 0 <= i < |xs| => if key(xs[i]) == key(x) then x else xs[i])
  }

  /** Some entry of `xs` carries key `k`. */
  predicate HasKey<T>(xs: seq<T>, k: int, key: T -> int) {
    exists i :: 0 <= i < |xs| && key(xs[i]) == k
  }

  /** No two entries of `xs` carry the same key. */
  predicate UniqueKeys<T>(xs: seq<T>, key: T -> int) {
    forall i, j :: 0 <= i < |xs| && 0 <= j < |xs| && key(xs[i]) == key(xs[j]) ==> i == j
  }

  /** `xs.filter(y => key(y) !== k)`: the delete-by-id the reducer performs. */
  function RemoveById<T(==,!new)>(xs: seq<T>, k: int, key: T -> int): (r: seq<T>)
    ensures IsSubsequence(r, xs)
    ensures !HasKey(r, k, key)
    ensures forall y :: key(y) != k ==> multiset(r)[y] == multiset(xs)[y]
  {
    var r := Filter(y => key(y) != k, xs);
    assert forall i :: 0 <= i < |r| ==> r[i] in r;
    r
  }

  /** Updating with a key no entry carries changes nothing. */
  lemma ReplaceAbsentKey<T>(xs: seq<T>, x: T, key: T -> int)
    requires !HasKey(xs, key(x), key)
    ensures ReplaceById(xs, x, key) == xs
  {
  }

  /** Updating keeps every entry's key, so uniqueness of keys survives it. */
  lemma ReplaceKeepsKeys<T>(xs: seq<T>, x: T, key: T -> int)
    ensures forall i :: 0 <= i < |xs| ==> key(ReplaceById(xs, x, key)[i]) == key(xs[i])
    ensures UniqueKeys(xs, key) ==> UniqueKeys(ReplaceById(xs, x, key), key)
  {
  }

  /** Updating twice with the same entry is the same as updating once. */
  lemma ReplaceIdempotent<T>(xs: seq<T>, x: T, key: T -> int)
    ensures ReplaceById(ReplaceById(xs, x, key), x, key) == ReplaceById(xs, x, key)
  {
  }

  /** Deleting a key no entry carries changes nothing. */
  lemma RemoveAbsentKey<T(!new)>(xs: seq<T>, k: int, key: T -> int)
    requires !HasKey(xs, k, key)
    ensures RemoveById(xs, k, key) == xs
  {
    FilterKeepsAll(y => key(y) != k, xs);
  }

  /** Deleting the key of an entry just appended with a fresh key restores the
      collection: delete undoes add. */
  lemma RemoveUndoesAppend<T(!new)>(xs: seq<T>, x: T, k: int, key: T -> int)
    requires key(x) == k
    requires !HasKey(xs, k, key)
    ensures RemoveById(xs + [x], k, key) == xs
  {
    var p := y => key(y) != k;
    FilterAppend(p, xs, [x]);
    RemoveAbsentKey(xs, k, key);
    assert Filter(p, [x]) == [];
  }

  /** Appending an entry with a fresh key keeps keys unique. */
  lemma AppendKeepsUnique<T>(xs: seq<T>, x: T, key: T -> int)
    requires UniqueKeys(xs, key)
    requires !HasKey(xs, key(x), key)
    ensures UniqueKeys(xs + [x], key)
  {
  }

  /** The tail of a sequence with unique keys has unique keys, none of them
      the head's. */
  lemma UniqueTail<T>(xs: seq<T>, key: T -> int)
    requires UniqueKeys(xs, key) && xs != []
    ensures UniqueKeys(xs[1..], key)
    ensures forall y :: y in xs[1..] ==> key(y) != key(xs[0])
  {
    var rest := xs[1..];
    forall i, j | 0 <= i < |rest| && 0 <= j < |rest| && key(rest[i]) == key(rest[j])
      ensures i == j
    {
      assert xs[i + 1] == rest[i] && xs[j + 1] == rest[j];
    }
    forall y | y in rest ensures key(y) != key(xs[0]) {
      var j :| 0 <= j < |rest| && rest[j] == y;
      assert xs[j + 1] == y;
    }
  }

  /** An entry whose key no entry of `ys` carries can go in front of `ys`. */
  lemma UniqueCons<T>(x: T, ys: seq<T>, key: T -> int)
    requires UniqueKeys(ys, key)
    requires forall y :: y in ys ==> key(y) != key(x)
    ensures UniqueKeys([x] + ys, key)
  {
    var r := [x] + ys;
    forall i, j | 0 <= i < |r| && 0 <= j < |r| && key(r[i]) == key(r[j])
      ensures i == j
    {
      if i > 0 { assert r[i] == ys[i - 1] && r[i] in ys; }
      if j > 0 { assert r[j] == ys[j - 1] && r[j] in ys; }
    }
  }

  /** Filtering keeps keys unique. */
  lemma {:induction false} FilterKeepsUnique<T(!new)>(p: T -> bool, xs: seq<T>, key: T -> int)
    requires UniqueKeys(xs, key)
    ensures UniqueKeys(Filter(p, xs), key)
    decreases |xs|
  {
    if xs != [] {
      var rest := xs[1..];
      UniqueTail(xs, key);
      FilterKeepsUnique(p, rest, key);
      assert xs == [xs[0]] + rest;
      FilterCons(p, xs[0], rest);
      if p(xs[0]) {
        UniqueCons(xs[0], Filter(p, rest), key);
      }
    }
  }

  /** Deleting by key keeps keys unique. */
  lemma RemoveKeepsUnique<T(!new)>(xs: seq<T>, k: int, key: T -> int)
    requires UniqueKeys(xs, key)
    ensures UniqueKeys(RemoveById(xs, k, key), key)
  {
    FilterKeepsUnique(y => key(y) != k, xs, key);
  }
}
