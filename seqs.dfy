/** Sequence combinators used by every component: `Array.prototype.filter`
    and a `reduce((sum, x) => sum + f(x), 0)` over exact amounts. Both are
    defined from the end of the sequence, so that `s[..i+1]` unfolds to
    `s[..i]` and one more element, which is how the loops elsewhere step. */
module Seqs {
  import opened Optional

  function Last<T>(s: seq<T>): T
    requires s != []
  {
    s[|s| - 1]
  }

  function Init<T>(s: seq<T>): seq<T>
    requires s != []
  {
    s[..|s| - 1]
  }

  /** The elements of `s` that satisfy `p`, in their original order. */
  function Filter<T>(s: seq<T>, p: T -> bool): (r: seq<T>)
    ensures |r| <= |s|
    ensures forall i :: 0 <= i < |r| ==> r[i] in s && p(r[i])
    ensures forall i :: 0 <= i < |s| && p(s[i]) ==> s[i] in r
  {
    if s == [] then []
    else Filter(Init(s), p) + (if p(Last(s)) then [Last(s)] else [])
  }

  /** Sum of `f` over the elements of `s` (a `reduce` starting from 0). */
  function SumBy<T>(s: seq<T>, f: T -> real): real
  {
    if s == [] then 0.0 else SumBy(Init(s), f) + f(Last(s))
  }

  /** Filtering distributes over concatenation: it keeps relative order. */
  lemma {:induction false} FilterAppend<T>(a: seq<T>, b: seq<T>, p: T -> bool)
    ensures Filter(a + b, p) == Filter(a, p) + Filter(b, p)
  {
    if b == [] {
      assert a + b == a;
    } else {
      assert Init(a + b) == a + Init(b);
      assert Last(a + b) == Last(b);
      FilterAppend(a, Init(b), p);
    }
  }

  lemma {:induction false} SumByAppend<T>(a: seq<T>, b: seq<T>, f: T -> real)
    ensures SumBy(a + b, f) == SumBy(a, f) + SumBy(b, f)
  {
    if b == [] {
      assert a + b == a;
    } else {
      assert Init(a + b) == a + Init(b);
      assert Last(a + b) == Last(b);
      SumByAppend(a, Init(b), f);
    }
  }

  /** Every element satisfies exactly one of `p` and "`q`" when `q` is the
      complement of `p`; the two filtered sums then partition the whole sum. */
  lemma {:induction false} SumByPartition<T>(s: seq<T>, p: T -> bool, q: T -> bool, f: T -> real)
    requires forall x :: x in s ==> (p(x) <==> !q(x))
    ensures SumBy(Filter(s, p), f) + SumBy(Filter(s, q), f) == SumBy(s, f)
  {
    if s != [] {
      SumByPartition(Init(s), p, q, f);
      var x := Last(s);
      SumByAppend(Filter(Init(s), p), if p(x) then [x] else [], f);
      SumByAppend(Filter(Init(s), q), if q(x) then [x] else [], f);
      assert SumBy([x], f) == f(x) by {
        assert Init([x]) == [];
      }
    }
  }

  /** A sum of non-negative terms is non-negative. */
  lemma {:induction false} SumByNonNegative<T>(s: seq<T>, f: T -> real)
    requires forall x :: x in s ==> f(x) >= 0.0
    ensures SumBy(s, f) >= 0.0
  {
    if s != [] {
      SumByNonNegative(Init(s), f);
    }
  }

  /** Filtering with a predicate that every element satisfies changes nothing. */
  lemma {:induction false} FilterAll<T>(s: seq<T>, p: T -> bool)
    requires forall x :: x in s ==> p(x)
    ensures Filter(s, p) == s
  {
    if s != [] {
      FilterAll(Init(s), p);
      assert Init(s) + [Last(s)] == s;
    }
  }

  /** Filtering with a predicate no element satisfies leaves nothing. */
  lemma {:induction false} FilterNone<T>(s: seq<T>, p: T -> bool)
    requires forall x :: x in s ==> !p(x)
    ensures Filter(s, p) == []
  {
    if s != [] {
      FilterNone(Init(s), p);
    }
  }

  /** A filter and the filter by its complement split the elements between
      them, counting multiplicity. */
  lemma {:induction false} FilterSplitMultiset<T>(s: seq<T>, p: T -> bool, q: T -> bool)
    requires forall x :: p(x) <==> !q(x)
    ensures multiset(Filter(s, p)) + multiset(Filter(s, q)) == multiset(s)
  {
    if s != [] {
      FilterSplitMultiset(Init(s), p, q);
      assert s == Init(s) + [Last(s)];
    }
  }

  /** Filtering twice is filtering once by the conjunction. */
  lemma {:induction false} FilterFilter<T>(s: seq<T>, p: T -> bool, q: T -> bool, both: T -> bool)
    requires forall x :: x in s ==> (both(x) <==> p(x) && q(x))
    ensures Filter(Filter(s, p), q) == Filter(s, both)
  {
    if s != [] {
      FilterFilter(Init(s), p, q, both);
      var x := Last(s);
      var a := Filter(Init(s), p);
      assert x in s && (both(x) <==> p(x) && q(x));
      if p(x) {
        assert Filter(s, p) == a + [x];
        assert Init(a + [x]) == a && Last(a + [x]) == x;
      } else {
        assert Filter(s, p) == a;
        assert Filter(s, both) == Filter(Init(s), both);
      }
    }
  }

  /** A filtered sum is the sum of the terms that pass, the others counting 0. */
  lemma {:induction false} SumByFilter<T>(s: seq<T>, p: T -> bool, f: T -> real, g: T -> real)
    requires forall x :: x in s ==> g(x) == (if p(x) then f(x) else 0.0)
    ensures SumBy(Filter(s, p), f) == SumBy(s, g)
  {
    if s != [] {
      SumByFilter(Init(s), p, f, g);
      var x := Last(s);
      SumByAppend(Filter(Init(s), p), if p(x) then [x] else [], f);
      assert SumBy([x], f) == f(x) by {
        assert Init([x]) == [];
      }
    }
  }

  /** `Array.prototype.find`: the first element satisfying `p`, if any. */
  function FindFirst<T>(s: seq<T>, p: T -> bool): (r: Option<T>)
    ensures r.None? <==> forall i :: 0 <= i < |s| ==> !p(s[i])
    ensures r.Some? ==> exists i :: 0 <= i < |s| && s[i] == r.value && p(s[i]) && forall j :: 0 <= j < i ==> !p(s[j])
  {
    if s == [] then None
    else if p(s[0]) then Some(s[0])
    else
      FindFirst(s[1..], p)
  }

  /** The first match is found when nothing before it matches. */
  lemma FindFirstAt<T>(s: seq<T>, p: T -> bool, i: nat)
    requires i < |s| && p(s[i])
    requires forall j :: 0 <= j < i ==> !p(s[j])
    ensures FindFirst(s, p) == Some(s[i])
  {
    var r := FindFirst(s, p);
    var k :| 0 <= k < |s| && s[k] == r.value && p(s[k]) && forall j :: 0 <= j < k ==> !p(s[j]);
    assert !(k < i) && !(i < k);
  }
}
