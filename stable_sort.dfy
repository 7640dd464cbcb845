/** `Array.prototype.sort` with a comparator of the form
    `(a, b) => key(a) - key(b)`. Since ES2019 the sort is stable, and a
    stable sort by a consistent comparator has exactly one result, so the
    functional insertion sort `Sort` below is a faithful specification of it
    whatever algorithm the engine runs. */
module StableSort {
  import opened Seqs

  /** Insert `x` after every element whose key is not greater than its own. */
  function Insert<T>(s: seq<T>, x: T, key: T -> real): seq<T>
  {
    if s == [] || key(Last(s)) <= key(x) then s + [x]
    else Insert(Init(s), x, key) + [Last(s)]
  }

  function Sort<T>(s: seq<T>, key: T -> real): seq<T>
  {
    if s == [] then [] else Insert(Sort(Init(s), key), Last(s), key)
  }

  ghost predicate Sorted<T>(s: seq<T>, key: T -> real)
  {
    forall i, j :: 0 <= i < j < |s| ==> key(s[i]) <= key(s[j])
  }

  /** The elements of `s` whose key equals `v`, in order. Stability is the
      statement that sorting preserves each of these subsequences. */
  function WithKey<T>(s: seq<T>, key: T -> real, v: real): seq<T>
  {
    if s == [] then [] else WithKey(Init(s), key, v) + (if key(Last(s)) == v then [Last(s)] else [])
  }

  lemma {:induction false} InsertPermutes<T>(s: seq<T>, x: T, key: T -> real)
    ensures multiset(Insert(s, x, key)) == multiset(s) + multiset{x}
    ensures |Insert(s, x, key)| == |s| + 1
  {
    if s != [] && key(Last(s)) > key(x) {
      InsertPermutes(Init(s), x, key);
      assert s == Init(s) + [Last(s)];
    }
  }

  /** An upper bound on every key of `s` and on `x` bounds the keys after insertion. */
  lemma {:induction false} InsertBounded<T>(s: seq<T>, x: T, key: T -> real, b: real)
    requires forall i :: 0 <= i < |s| ==> key(s[i]) <= b
    requires key(x) <= b
    ensures forall i :: 0 <= i < |Insert(s, x, key)| ==> key(Insert(s, x, key)[i]) <= b
  {
    if s != [] && key(Last(s)) > key(x) {
      InsertBounded(Init(s), x, key, b);
    }
  }

  lemma {:induction false} InsertSorted<T>(s: seq<T>, x: T, key: T -> real)
    requires Sorted(s, key)
    ensures Sorted(Insert(s, x, key), key)
  {
    if s != [] && key(Last(s)) > key(x) {
      InsertSorted(Init(s), x, key);
      InsertBounded(Init(s), x, key, key(Last(s)));
    }
  }

  lemma {:induction false} SortSpec<T>(s: seq<T>, key: T -> real)
    ensures Sorted(Sort(s, key), key)
    ensures multiset(Sort(s, key)) == multiset(s)
    ensures |Sort(s, key)| == |s|
  {
    if s != [] {
      SortSpec(Init(s), key);
      InsertSorted(Sort(Init(s), key), Last(s), key);
      InsertPermutes(Sort(Init(s), key), Last(s), key);
      assert s == Init(s) + [Last(s)];
    }
  }

  lemma {:induction false} InsertWithKey<T>(s: seq<T>, x: T, key: T -> real, v: real)
    ensures WithKey(Insert(s, x, key), key, v) == WithKey(s, key, v) + (if key(x) == v then [x] else [])
  {
    if s == [] || key(Last(s)) <= key(x) {
      assert Init(s + [x]) == s;
    } else {
      InsertWithKey(Init(s), x, key, v);
      var r := Insert(Init(s), x, key);
      assert Init(r + [Last(s)]) == r;
    }
  }

  /** Stability: for every key value, the elements carrying it appear in the
      sorted result in the same relative order as in the input. */
  lemma {:induction false} SortIsStable<T>(s: seq<T>, key: T -> real, v: real)
    ensures WithKey(Sort(s, key), key, v) == WithKey(s, key, v)
  {
    if s != [] {
      SortIsStable(Init(s), key, v);
      InsertWithKey(Sort(Init(s), key), Last(s), key, v);
    }
  }

  lemma {:induction false} InsertSum<T>(s: seq<T>, x: T, key: T -> real, f: T -> real)
    ensures SumBy(Insert(s, x, key), f) == SumBy(s, f) + f(x)
  {
    if s != [] && key(Last(s)) > key(x) {
      InsertSum(Init(s), x, key, f);
      var r := Insert(Init(s), x, key);
      assert Init(r + [Last(s)]) == r;
    }
  }

  /** Sorting does not change any sum over the elements. */
  lemma {:induction false} SortKeepsSum<T>(s: seq<T>, key: T -> real, f: T -> real)
    ensures SumBy(Sort(s, key), f) == SumBy(s, f)
  {
    if s != [] {
      SortKeepsSum(Init(s), key, f);
      InsertSum(Sort(Init(s), key), Last(s), key, f);
    }
  }

  /** Where the inner loop of the in-place sort stops, inserting there is `Insert`. */
  lemma {:induction false} InsertAt<T>(s: seq<T>, x: T, key: T -> real, j: nat)
    requires j <= |s|
    requires j == 0 || key(s[j - 1]) <= key(x)
    requires forall k :: j <= k < |s| ==> key(s[k]) > key(x)
    ensures Insert(s, x, key) == s[..j] + [x] + s[j..]
    decreases |s|
  {
    if j < |s| {
      InsertAt(Init(s), x, key, j);
      assert Init(s)[..j] == s[..j];
      assert Init(s)[j..] + [Last(s)] == s[j..];
    }
  }

  /** One pass of the inner loop: shift the larger keys of the prefix
      `a[..i]` one place right and drop `a[i]` into the gap. */
  method InsertIntoPrefix<T>(a: array<T>, i: nat, key: T -> real)
    requires i < a.Length
    modifies a
    ensures a[..i + 1] == Insert(old(a[..i]), old(a[i]), key)
    ensures a[i + 1..] == old(a[i + 1..])
  {
    ghost var prefix := a[..i];
    var x := a[i];
    var j := i;
    while j > 0 && key(a[j - 1]) > key(x)
      invariant 0 <= j <= i
      invariant a[..j] == prefix[..j]
      invariant a[j + 1..i + 1] == prefix[j..]
      invariant a[i + 1..] == old(a[i + 1..])
      invariant forall k :: j <= k < i ==> key(prefix[k]) > key(x)
    {
      a[j] := a[j - 1];
      j := j - 1;
    }
    a[j] := x;
    InsertAt(prefix, x, key, j);
    assert a[..i + 1] == prefix[..j] + [x] + prefix[j..];
  }

  /** The sort the ledger view runs on its array: insertion sort in place,
      which produces exactly `Sort` of the original contents. */
  method SortInPlace<T>(a: array<T>, key: T -> real)
    modifies a
    ensures a[..] == Sort(old(a[..]), key)
  {
    ghost var input := a[..];
    var i := 0;
    while i < a.Length
      invariant 0 <= i <= a.Length
      invariant a[..i] == Sort(input[..i], key)
      invariant a[i..] == input[i..]
    {
      InsertIntoPrefix(a, i, key);
      assert Init(input[..i + 1]) == input[..i] && Last(input[..i + 1]) == input[i];
      i := i + 1;
    }
    assert input[..a.Length] == input;
  }
}
