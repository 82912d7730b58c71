/**
 * Vocabulary construction (`Dataset.__build_mappings` in Project_2/dataset.py) and
 * the dictionary lookups that turn raw values into ids and back.
 */
module Vocabulary {

  /** The pair `(id_to_value, value_to_id)` returned by `__build_mappings`. */
  datatype Mappings = Mappings(idToValue: map<int, int>, valueToId: map<int, int>)

  predicate StrictlyIncreasing(s: seq<int>) {
    forall i, j :: 0 <= i < j < |s| ==> s[i] < s[j]
  }

  /** A non-empty set has an element. */
  lemma HasElement(s: set<int>)
    requires s != {}
    ensures exists x :: x in s
  {
    if forall x :: x !in s {
      assert false;
    }
  }

  /** A finite set of ints that holds `x` has a least element. */
  lemma {:induction false} HasLeast(s: set<int>, x: int)
    requires x in s
    ensures exists m :: m in s && forall y :: y in s ==> m <= y
  {
    if !forall y :: y in s ==> x <= y {
      var y :| y in s && y < x;
      HasLeast(s - {x}, y);
      var m :| m in s - {x} && forall z :: z in s - {x} ==> m <= z;
      forall z | z in s ensures m <= z {
        if z != x {
          assert z in s - {x};
        }
      }
    }
  }

  /** The smallest element of a non-empty set. */
  function MinOf(s: set<int>): (m: int)
    requires s != {}
    ensures m in s
    ensures forall y :: y in s ==> m <= y
  {
    HasElement(s);
    var x :| x in s;
    HasLeast(s, x);
    var m :| m in s && forall y :: y in s ==> m <= y;
    m
  }

  /** Python's `sorted(possible_values)` on a set of ints. */
  function Sorted(values: set<int>): (r: seq<int>)
    ensures |r| == |values|
    ensures forall x :: x in r <==> x in values
  {
    if values == {} then []
    else
      var m := MinOf(values);
      [m] + Sorted(values - {m})
  }

  /** `sorted` lists the values in strictly increasing order. */
  lemma {:induction false} SortedIsIncreasing(values: set<int>)
    ensures StrictlyIncreasing(Sorted(values))
  {
    if values != {} {
      var m := MinOf(values);
      SortedIsIncreasing(values - {m});
      PrependLeast(m, Sorted(values - {m}));
    }
  }

  /** A value below every element of a strictly increasing sequence can go in front of it. */
  lemma PrependLeast(m: int, rest: seq<int>)
    requires StrictlyIncreasing(rest)
    requires forall x :: x in rest ==> m < x
    ensures StrictlyIncreasing([m] + rest)
  {
    forall i, j | 0 <= i < j < |[m] + rest| ensures ([m] + rest)[i] < ([m] + rest)[j] {
      assert ([m] + rest)[j] == rest[j - 1];
      if i == 0 {
        assert rest[j - 1] in rest;
      } else {
        assert ([m] + rest)[i] == rest[i - 1];
      }
    }
  }

  /** `s` lists exactly the elements of `values`. */
  ghost predicate Enumerates(s: seq<int>, values: set<int>) {
    forall x :: x in s <==> x in values
  }

  /** The head of a strictly increasing enumeration is the least value; the tail enumerates the rest. */
  lemma HeadIsLeast(s: seq<int>, values: set<int>)
    requires StrictlyIncreasing(s) && Enumerates(s, values) && s != []
    ensures values != {} && s[0] == MinOf(values)
    ensures Enumerates(s[1..], values - {s[0]})
    ensures StrictlyIncreasing(s[1..])
  {
    assert s[0] in s;
    var m := MinOf(values);
    assert m in s;
    var i :| 0 <= i < |s| && s[i] == m;
    assert s[0] <= s[i];
    forall x | x in values - {s[0]} ensures x in s[1..] {
      assert x in s;
      var j :| 0 <= j < |s| && s[j] == x;
      assert s[1..][j - 1] == x;
    }
    forall x | x in s[1..] ensures x in values - {s[0]} {
      var j :| 0 <= j < |s[1..]| && s[1..][j] == x;
      assert s[j + 1] == x;
      assert s[0] < s[j + 1];
    }
  }

  /** Sorting a non-empty set puts its least value before the sorted rest. */
  lemma SortedStep(values: set<int>, m: int, rest: seq<int>)
    requires values != {} && m == MinOf(values) && rest == Sorted(values - {m})
    ensures Sorted(values) == [m] + rest
  {
  }

  /**
   * `sorted` is the only strictly increasing enumeration of a set: the ids do not
   * depend on the order in which the values were discovered.
   */
  lemma {:induction false} SortedIsUnique(s: seq<int>, values: set<int>)
    requires StrictlyIncreasing(s)
    requires Enumerates(s, values)
    ensures s == Sorted(values)
  {
    if s == [] {
      assert values == {} by {
        assert forall x :: x !in values;
      }
    } else {
      HeadIsLeast(s, values);
      SortedIsUnique(s[1..], values - {s[0]});
      SortedStep(values, s[0], s[1..]);
      assert s == [s[0]] + s[1..];
    }
  }

  /** The ids `0 .. n-1`, as a set. */
  function IdRange(n: nat): (ids: set<int>)
    ensures forall i :: i in ids <==> 0 <= i < n
    ensures |ids| == n
  {
    if n == 0 then {} else IdRange(n - 1) + {n - 1}
  }

  /** The position of `x` in a sequence that contains it. */
  function IndexOf(s: seq<int>, x: int): (i: nat)
    requires x in s
    ensures i < |s| && s[i] == x
  {
    if s[0] == x then 0
    else
      assert x in s[1..] by {
        var j :| 0 <= j < |s| && s[j] == x;
        assert s[1..][j - 1] == x;
      }
      1 + IndexOf(s[1..], x)
  }

  /** `dict(zip(range(n), sorted_values))`: position `i` becomes key `i`. */
  function ZipIds(sorted: seq<int>): (d: map<int, int>)
    ensures d.Keys == IdRange(|sorted|)
    ensures forall i :: 0 <= i < |sorted| ==> d[i] == sorted[i]
  {
    var d := map i | 0 <= i < |sorted| :: sorted[i];
    assert d.Keys == IdRange(|sorted|);
    d
  }

  /** `inv_map` of `ZipIds(sorted)`: each value of `sorted` to its position. */
  function InvertIds(sorted: seq<int>, values: set<int>): (d: map<int, int>)
    requires forall x :: x in sorted <==> x in values
    ensures d.Keys == values
    ensures forall x :: x in values ==> 0 <= d[x] < |sorted| && sorted[d[x]] == x
  {
    map x | x in values :: IndexOf(sorted, x)
  }

  /**
   * `__build_mappings(possible_values)`: id `i` names the `i`-th smallest value
   * (`dict(zip(range(n), sorted(...)))`), and the second dictionary sends each value
   * back to its id (`inv_map`, see `MappingsAreInverse`).
   */
  function BuildMappings(possibleValues: set<int>): (v: Mappings)
    ensures v.idToValue.Keys == IdRange(|possibleValues|)
    ensures v.valueToId.Keys == possibleValues
  {
    var sorted := Sorted(possibleValues);
    Mappings(ZipIds(sorted), InvertIds(sorted, possibleValues))
  }

  /** Both dictionaries have one entry per distinct value. */
  lemma MappingsSize(possibleValues: set<int>)
    ensures |BuildMappings(possibleValues).idToValue| == |possibleValues|
    ensures |BuildMappings(possibleValues).valueToId| == |possibleValues|
  {
    var v := BuildMappings(possibleValues);
    assert v.idToValue.Keys == IdRange(|possibleValues|);
    assert v.valueToId.Keys == possibleValues;
  }

  /** Every position of the sorted values is an id. */
  lemma IdIsKey(possibleValues: set<int>, i: int)
    requires 0 <= i < |possibleValues|
    ensures i in BuildMappings(possibleValues).idToValue
  {
  }

  /** Id `i` names the `i`-th value of `sorted(possible_values)`. */
  lemma IdNamesSortedValue(possibleValues: set<int>, i: int)
    requires 0 <= i < |possibleValues|
    ensures i in BuildMappings(possibleValues).idToValue
    ensures BuildMappings(possibleValues).idToValue[i] == Sorted(possibleValues)[i]
  {
    IdIsKey(possibleValues, i);
  }

  /** Ids are assigned in increasing order of value. */
  lemma IdsFollowValueOrder(possibleValues: set<int>, i: int, j: int)
    requires 0 <= i < j < |possibleValues|
    ensures var v := BuildMappings(possibleValues);
      i in v.idToValue && j in v.idToValue && v.idToValue[i] < v.idToValue[j]
  {
    IdNamesSortedValue(possibleValues, i);
    IdNamesSortedValue(possibleValues, j);
    SortedIsIncreasing(possibleValues);
  }

  /** The ids name exactly the values of the set. */
  lemma IdsCoverValues(possibleValues: set<int>)
    ensures BuildMappings(possibleValues).idToValue.Values == possibleValues
  {
    var sorted := Sorted(possibleValues);
    var v := BuildMappings(possibleValues);
    forall x | x in possibleValues ensures x in v.idToValue.Values {
      var i := v.valueToId[x];
      assert i in v.idToValue && v.idToValue[i] == sorted[i] == x;
    }
  }

  /** Two positions of `sorted` that hold the same value are the same position. */
  lemma SortedIsInjective(values: set<int>, i: int, j: int)
    requires 0 <= i < |values| && 0 <= j < |values|
    requires Sorted(values)[i] == Sorted(values)[j]
    ensures i == j
  {
    SortedIsIncreasing(values);
  }

  /** Looking up the value of an id in `value_to_id` gives that id back. */
  lemma IdRoundTrip(possibleValues: set<int>)
    ensures var v := BuildMappings(possibleValues);
      forall i :: i in v.idToValue ==> v.idToValue[i] in v.valueToId && v.valueToId[v.idToValue[i]] == i
  {
    var sorted := Sorted(possibleValues);
    var v := BuildMappings(possibleValues);
    forall i | i in v.idToValue
      ensures v.idToValue[i] in v.valueToId && v.valueToId[v.idToValue[i]] == i
    {
      var x := v.idToValue[i];
      assert x == sorted[i] && x in sorted;
      var j := v.valueToId[x];
      SortedIsInjective(possibleValues, i, j);
    }
  }

  /** Looking up the id of a value in `id_to_value` gives that value back. */
  lemma ValueRoundTrip(possibleValues: set<int>)
    ensures var v := BuildMappings(possibleValues);
      forall x :: x in v.valueToId ==> v.valueToId[x] in v.idToValue && v.idToValue[v.valueToId[x]] == x
  {
    var sorted := Sorted(possibleValues);
    var v := BuildMappings(possibleValues);
    forall x | x in v.valueToId
      ensures v.valueToId[x] in v.idToValue && v.idToValue[v.valueToId[x]] == x
    {
      var j := v.valueToId[x];
      assert j in v.idToValue && v.idToValue[j] == sorted[j];
    }
  }

  /** `value_to_id` is the exact inverse of `id_to_value`, in both directions. */
  lemma MappingsAreInverse(possibleValues: set<int>)
    ensures var v := BuildMappings(possibleValues);
      forall i :: i in v.idToValue ==> v.idToValue[i] in v.valueToId && v.valueToId[v.idToValue[i]] == i
    ensures var v := BuildMappings(possibleValues);
      forall x :: x in v.valueToId ==> v.valueToId[x] in v.idToValue && v.idToValue[v.valueToId[x]] == x
  {
    IdRoundTrip(possibleValues);
    ValueRoundTrip(possibleValues);
  }

  /** Every value's id is one of `0 .. n-1`. */
  lemma IdsInRange(possibleValues: set<int>)
    ensures var v := BuildMappings(possibleValues);
      forall x :: x in v.valueToId ==> 0 <= v.valueToId[x] < |possibleValues|
  {
    MappingsAreInverse(possibleValues);
  }

  /** An empty set of values gives two empty dictionaries. */
  lemma EmptyMappings()
    ensures BuildMappings({}) == Mappings(map[], map[])
  {
  }

  /**
   * `[d[x] for x in keys]`: `[value_to_id[x] for x in values]` when encoding and
   * `[id_to_value[i] for i in ids]` when reading ids back. A missing key is a
   * `KeyError` in the source.
   */
  function Lookup(keys: seq<int>, d: map<int, int>): (r: seq<int>)
    requires forall k :: 0 <= k < |keys| ==> keys[k] in d
    ensures |r| == |keys|
    ensures forall k :: 0 <= k < |r| ==> r[k] in d.Values
  {
    seq(|keys|, k requires 0 <= k < |keys| => d[keys[k]])
  }

  /**
   * What `__build_mappings` promises about its two dictionaries for a set of values:
   * ids `0 .. n-1`, one per value, the two dictionaries inverse to each other.
   */
  ghost predicate IsVocabulary(v: Mappings, values: set<int>) {
    v.idToValue.Keys == IdRange(|values|) &&
    v.valueToId.Keys == values &&
    (forall x :: x in v.valueToId ==> v.valueToId[x] in v.idToValue && v.idToValue[v.valueToId[x]] == x)
  }

  /** `__build_mappings` keeps the promise `IsVocabulary` states. */
  lemma BuildMappingsIsVocabulary(possibleValues: set<int>)
    ensures IsVocabulary(BuildMappings(possibleValues), possibleValues)
  {
    MappingsAreInverse(possibleValues);
  }

  /** Encoding through any vocabulary of a superset of the values gives ids `0 .. n-1` that decode back. */
  lemma {:induction false} EncodeThroughVocabulary(values: seq<int>, v: Mappings, possibleValues: set<int>)
    requires IsVocabulary(v, possibleValues)
    requires forall k :: 0 <= k < |values| ==> values[k] in possibleValues
    ensures var ids := Lookup(values, v.valueToId);
      (forall k :: 0 <= k < |ids| ==> 0 <= ids[k] < |possibleValues| && ids[k] in v.idToValue) &&
      Lookup(ids, v.idToValue) == values
  {
    assert forall k :: 0 <= k < |values| ==> values[k] in v.valueToId;
    var ids := Lookup(values, v.valueToId);
    forall k | 0 <= k < |ids|
      ensures 0 <= ids[k] < |possibleValues| && ids[k] in v.idToValue && v.idToValue[ids[k]] == values[k]
    {
      var x := values[k];
      assert x in v.valueToId && ids[k] == v.valueToId[x];
      assert v.valueToId[x] in v.idToValue && v.idToValue[v.valueToId[x]] == x;
    }
  }

  /** Encoding against a vocabulary built from a superset of the values gives ids `0 .. n-1`. */
  lemma EncodeInRange(values: seq<int>, possibleValues: set<int>)
    requires forall k :: 0 <= k < |values| ==> values[k] in possibleValues
    ensures var ids := Lookup(values, BuildMappings(possibleValues).valueToId);
      forall k :: 0 <= k < |ids| ==> 0 <= ids[k] < |possibleValues|
  {
    BuildMappingsIsVocabulary(possibleValues);
    EncodeThroughVocabulary(values, BuildMappings(possibleValues), possibleValues);
  }

  /** Decoding the ids through `id_to_value` recovers the raw values exactly. */
  lemma DecodeEncode(values: seq<int>, possibleValues: set<int>)
    requires forall k :: 0 <= k < |values| ==> values[k] in possibleValues
    ensures var v := BuildMappings(possibleValues);
      var ids := Lookup(values, v.valueToId);
      (forall k :: 0 <= k < |ids| ==> ids[k] in v.idToValue) && Lookup(ids, v.idToValue) == values
  {
    BuildMappingsIsVocabulary(possibleValues);
    EncodeThroughVocabulary(values, BuildMappings(possibleValues), possibleValues);
  }
}
