/** A JavaScript object used as a dictionary of running totals: the loops
    `acc[key] = (acc[key] || 0) + amount` in the analytics page, the budget
    overview, the insights panel and the chat context. A tally is a
    sequence of distinct keys in order of first insertion plus a map. The
    order in which `Object.keys`, `Object.entries` and `Object.values` list
    those keys is a different one (array indices first) and is
    `ObjectKeys.PropertyOrder` of the insertion order. */
module Tally {
  import opened Seqs

  /** The distinct keys of `entries`, in order of first appearance. */
  function Keys<K(==)>(entries: seq<(K, real)>): (ks: seq<K>)
    ensures forall i, j :: 0 <= i < j < |ks| ==> ks[i] != ks[j]
    ensures forall i :: 0 <= i < |entries| ==> entries[i].0 in ks
  {
    if entries == [] then []
    else
      var ks := Keys(Init(entries));
      if Last(entries).0 in ks then ks else ks + [Last(entries).0]
  }

  /** Every listed key was the key of some entry. */
  lemma {:induction false} KeysComeFromEntries<K>(entries: seq<(K, real)>, k: K)
    requires k in Keys(entries)
    ensures exists j :: 0 <= j < |entries| && entries[j].0 == k
  {
    var rest := Init(entries);
    if k in Keys(rest) {
      KeysComeFromEntries(rest, k);
      var j :| 0 <= j < |rest| && rest[j].0 == k;
      assert entries[j] == rest[j];
    } else {
      assert entries[|entries| - 1].0 == k;
    }
  }

  /** Sum of the amounts recorded under key `k`. */
  function SumFor<K(==)>(entries: seq<(K, real)>, k: K): real
  {
    if entries == [] then 0.0
    else SumFor(Init(entries), k) + (if Last(entries).0 == k then Last(entries).1 else 0.0)
  }

  /** Sum of all amounts. */
  function Total<K(==)>(entries: seq<(K, real)>): real
  {
    if entries == [] then 0.0 else Total(Init(entries)) + Last(entries).1
  }

  /** The dictionary the loop builds: one entry per distinct key, holding the
      sum of that key's amounts. */
  function SumsOf<K(==)>(entries: seq<(K, real)>): (m: map<K, real>)
  {
    map k | k in Keys(entries) :: SumFor(entries, k)
  }

  /** `dict[key] || 0`: the stored total, or 0 for a key never seen. */
  function Lookup<K(==)>(sums: map<K, real>, k: K): real
  {
    if k in sums then sums[k] else 0.0
  }

  /** Sum over the key list `ks` of each key's total (`Object.values(dict)`
      reduced with `+`, when `ks` is the dictionary's key order). */
  function SumOver<K(==)>(ks: seq<K>, entries: seq<(K, real)>): real
  {
    if ks == [] then 0.0 else SumOver(Init(ks), entries) + SumFor(entries, Last(ks))
  }

  lemma {:induction false} SumForAbsent<K>(entries: seq<(K, real)>, k: K)
    requires k !in Keys(entries)
    ensures SumFor(entries, k) == 0.0
  {
    if entries != [] {
      SumForAbsent(Init(entries), k);
    }
  }

  /** A key's running total is what `dict[key] || 0` reads back. */
  lemma LookupIsSumFor<K>(entries: seq<(K, real)>, k: K)
    ensures Lookup(SumsOf(entries), k) == SumFor(entries, k)
  {
    if k !in Keys(entries) {
      SumForAbsent(entries, k);
    }
  }

  lemma {:induction false} SumOverStep<K>(ks: seq<K>, entries: seq<(K, real)>)
    requires entries != []
    requires forall i, j :: 0 <= i < j < |ks| ==> ks[i] != ks[j]
    ensures SumOver(ks, entries) ==
            SumOver(ks, Init(entries)) + (if Last(entries).0 in ks then Last(entries).1 else 0.0)
  {
    if ks != [] {
      SumOverStep(Init(ks), entries);
      assert ks == Init(ks) + [Last(ks)];
      assert Last(entries).0 in ks <==> Last(entries).0 in Init(ks) || Last(entries).0 == Last(ks);
    }
  }

  /** The per-key totals partition the grand total: summing the dictionary's
      values gives back the sum of every amount that went in. */
  lemma {:induction false} PartitionSum<K>(entries: seq<(K, real)>)
    ensures SumOver(Keys(entries), entries) == Total(entries)
  {
    if entries != [] {
      var e, rest := Last(entries), Init(entries);
      PartitionSum(rest);
      var ks := Keys(rest);
      SumOverStep(ks, entries);
      if e.0 !in ks {
        SumForAbsent(rest, e.0);
        assert Init(ks + [e.0]) == ks;
      }
    }
  }

  /** One more entry appends its key to the key list unless already listed. */
  lemma KeysSnoc<K>(prefix: seq<(K, real)>, e: (K, real))
    ensures Keys(prefix + [e]) == if e.0 in Keys(prefix) then Keys(prefix) else Keys(prefix) + [e.0]
  {
    assert Init(prefix + [e]) == prefix && Last(prefix + [e]) == e;
  }

  /** One more entry appended updates exactly its own key: the step
      `acc[key] = (acc[key] || 0) + amount`. */
  lemma SnocStep<K>(prefix: seq<(K, real)>, e: (K, real))
    ensures SumsOf(prefix + [e]) == SumsOf(prefix)[e.0 := Lookup(SumsOf(prefix), e.0) + e.1]
    ensures Total(prefix + [e]) == Total(prefix) + e.1
  {
    var p := prefix + [e];
    assert Init(p) == prefix && Last(p) == e;
    KeysSnoc(prefix, e);
    if e.0 !in Keys(prefix) {
      SumForAbsent(prefix, e.0);
    }
  }

  /** The accumulation loop: one pass over `entries`, adding each amount to its
      key's running total (creating the key on first sight) and to the grand
      total. */
  method Accumulate<K(==)>(entries: seq<(K, real)>) returns (keys: seq<K>, sums: map<K, real>, total: real)
    ensures keys == Keys(entries)
    ensures sums == SumsOf(entries)
    ensures total == Total(entries)
  {
    keys, sums, total := [], map[], 0.0;
    for i := 0 to |entries|
      invariant keys == Keys(entries[..i])
      invariant sums == SumsOf(entries[..i])
      invariant total == Total(entries[..i])
    {
      var (k, v) := entries[i];
      assert entries[..i + 1] == entries[..i] + [(k, v)];
      KeysSnoc(entries[..i], (k, v));
      SnocStep(entries[..i], (k, v));
      if k in sums {
        sums := sums[k := sums[k] + v];
      } else {
        keys := keys + [k];
        sums := sums[k := v];
      }
      total := total + v;
    }
    assert entries[..|entries|] == entries;
  }
}
