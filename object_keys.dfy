/** The order in which `Object.keys`, `Object.values` and `Object.entries`
    list an ordinary object's string keys (OrdinaryOwnPropertyKeys, section
    10.1.11.1 of ECMA-262, 13th edition): first the keys that are array
    indices, in ascending numeric order, then the other keys in the order
    they were created. */
module ObjectKeys {
  import opened Seqs
  import StableSort

  predicate IsDigit(c: char)
  {
    '0' <= c <= '9'
  }

  /** The number a string of decimal digits denotes. */
  function DigitsValue(k: string): nat
    requires forall i :: 0 <= i < |k| ==> IsDigit(k[i])
  {
    if k == [] then 0
    else
      var d := k[|k| - 1];
      assert IsDigit(d);
      DigitsValue(k[..|k| - 1]) * 10 + (d as int - '0' as int)
  }

  /** An array index: the canonical decimal form (no sign, no leading zero
      except "0" itself) of an integer below 2^32 - 1. */
  predicate IsArrayIndex(k: string)
  {
    && |k| > 0
    && (forall i :: 0 <= i < |k| ==> IsDigit(k[i]))
    && (k[0] != '0' || |k| == 1)
    && DigitsValue(k) < 0xFFFF_FFFF
  }

  predicate IsNamedKey(k: string)
  {
    !IsArrayIndex(k)
  }

  /** The sort key of an array index; the other keys are not sorted. */
  function IndexValue(k: string): real
  {
    if IsArrayIndex(k) then DigitsValue(k) as real else 0.0
  }

  /** The listing order of an object whose keys were created in the order
      `created`. */
  function PropertyOrder(created: seq<string>): seq<string>
  {
    StableSort.Sort(Filter(created, IsArrayIndex), IndexValue) + Filter(created, IsNamedKey)
  }

  /** Creation order with the array indices sorted to the front. */
  lemma PropertyOrderPermutes(created: seq<string>)
    ensures multiset(PropertyOrder(created)) == multiset(created)
    ensures |PropertyOrder(created)| == |created|
  {
    StableSort.SortSpec(Filter(created, IsArrayIndex), IndexValue);
    FilterSplitMultiset(created, IsArrayIndex, IsNamedKey);
    assert |PropertyOrder(created)| == |multiset(PropertyOrder(created))|;
  }

  /** The sorted part holds array indices only; the rest holds none. */
  lemma PartsOfPropertyOrder(created: seq<string>)
    ensures forall x :: x in StableSort.Sort(Filter(created, IsArrayIndex), IndexValue) ==> IsArrayIndex(x)
    ensures forall x :: x in Filter(created, IsNamedKey) ==> !IsArrayIndex(x)
  {
    var indices := Filter(created, IsArrayIndex);
    StableSort.SortSpec(indices, IndexValue);
    forall x | x in StableSort.Sort(indices, IndexValue)
      ensures IsArrayIndex(x)
    {
      assert x in multiset(indices);
    }
  }

  /** Array indices come first, in ascending numeric order. */
  lemma IndicesFirstAscending(created: seq<string>)
    ensures var r := PropertyOrder(created);
            forall i, j :: 0 <= i < j < |r| && IsArrayIndex(r[j]) ==>
              IsArrayIndex(r[i]) && DigitsValue(r[i]) <= DigitsValue(r[j])
  {
    var sorted := StableSort.Sort(Filter(created, IsArrayIndex), IndexValue);
    var named := Filter(created, IsNamedKey);
    var r := sorted + named;
    StableSort.SortSpec(Filter(created, IsArrayIndex), IndexValue);
    PartsOfPropertyOrder(created);
    forall i, j | 0 <= i < j < |r| && IsArrayIndex(r[j])
      ensures IsArrayIndex(r[i]) && DigitsValue(r[i]) <= DigitsValue(r[j])
    {
      if j >= |sorted| {
        assert false;
      } else {
        assert IndexValue(sorted[i]) <= IndexValue(sorted[j]);
      }
    }
  }

  /** Every other key keeps its creation order. */
  lemma NamedKeysKeepOrder(created: seq<string>)
    ensures Filter(PropertyOrder(created), IsNamedKey) == Filter(created, IsNamedKey)
  {
    var sorted := StableSort.Sort(Filter(created, IsArrayIndex), IndexValue);
    var named := Filter(created, IsNamedKey);
    PartsOfPropertyOrder(created);
    FilterAppend(sorted, named, IsNamedKey);
    FilterNone(sorted, IsNamedKey);
    FilterAll(named, IsNamedKey);
  }

  /** When no key is an array index the listing is the creation order itself. */
  lemma NoIndexKeepsCreationOrder(created: seq<string>)
    requires forall i :: 0 <= i < |created| ==> !IsArrayIndex(created[i])
    ensures PropertyOrder(created) == created
  {
    FilterNone(created, IsArrayIndex);
    FilterAll(created, IsNamedKey);
  }

  /** An array index created after another key is listed before it. */
  lemma IndexBeforeNamed(named: string, index: string)
    requires !IsArrayIndex(named) && IsArrayIndex(index)
    ensures PropertyOrder([named, index]) == [index, named]
  {
    var created := [named, index];
    assert Init(created) == [named] && Last(created) == index;
    assert Init([named]) == [] && Last([named]) == named;
    assert Filter(created, IsArrayIndex) == [index];
    assert Filter(created, IsNamedKey) == [named];
    assert Init([index]) == [] && Last([index]) == index;
    assert StableSort.Sort([index], IndexValue) == [index];
  }

  /** A category named "7" created after "Food" is still listed first. */
  lemma IndexListedFirst()
    ensures PropertyOrder(["Food", "7"]) == ["7", "Food"]
  {
    var seven, food := "7", "Food";
    assert seven[..0] == [];
    assert DigitsValue(seven) == 7;
    assert !IsDigit(food[0]);
    IndexBeforeNamed(food, seven);
  }
}
