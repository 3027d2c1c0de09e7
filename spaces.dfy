/** The space descriptors of gym / gymnasium that the wrappers understand. */
module Spaces {
  import opened Common
  import opened Tensors
  import opened Keys

  datatype Field = Field(key: string, space: Space)

  /** `Unsupported` stands for every other space class (MultiDiscrete, MultiBinary, Tuple, ...).
      A Dict lists its fields in the order its `spaces` mapping holds them: the order they were
      given in for an OrderedDict, sorted by key for a plain dict (see `SortedFields`). */
  datatype Space =
    | Discrete(n: nat)
    | Box(low: Tensor, high: Tensor, shape: seq<nat>, dtype: DType)
    | Dict(fields: seq<Field>)
    | Unsupported(kind: string)

  /** `space.keys()`, in insertion order. */
  function FieldKeys(fields: seq<Field>): (ks: seq<string>)
    ensures |ks| == |fields| && forall i | 0 <= i < |fields| :: ks[i] == fields[i].key
  {
    seq(|fields|, i requires 0 <= i < |fields| => fields[i].key)
  }

  /** The keys of a Python dict are pairwise different. */
  predicate DistinctKeys(fields: seq<Field>)
  {
    Distinct(FieldKeys(fields))
  }

  /** `space[k]`. */
  function FieldSpace(fields: seq<Field>, k: string): Space
    requires k in FieldKeys(fields)
  {
    fields[IndexOf(FieldKeys(fields), k).value].space
  }

  /** `gym.spaces.Dict(spaces)` for a plain dict `spaces`: the constructor stores the
      items sorted by key. */
  function SortedFields(fields: seq<Field>): (r: seq<Field>)
    ensures FieldKeys(r) == SortKeys(FieldKeys(fields))
    ensures forall j | 0 <= j < |r| :: r[j].key in FieldKeys(fields) && r[j].space == FieldSpace(fields, r[j].key)
  {
    var keys := SortKeys(FieldKeys(fields));
    SortKeysAreKeys(FieldKeys(fields));
    seq(|keys|, j requires 0 <= j < |keys| => Field(keys[j], FieldSpace(fields, keys[j])))
  }

  /** Two field lists that are the same Python dict, whatever their insertion order. */
  predicate SameMapping(f1: seq<Field>, f2: seq<Field>)
  {
    && DistinctKeys(f1) && DistinctKeys(f2)
    && (forall k | k in FieldKeys(f1) :: k in FieldKeys(f2))
    && (forall k | k in FieldKeys(f2) :: k in FieldKeys(f1))
    && (forall k | k in FieldKeys(f1) :: FieldSpace(f1, k) == FieldSpace(f2, k))
  }

  predicate Distinct(s: seq<string>)
  {
    forall i, j | 0 <= i < j < |s| :: s[i] != s[j]
  }

  lemma {:induction false} DistinctMultiset(s: seq<string>)
    requires Distinct(s)
    ensures multiset(s) == multiset(set x | x in s)
  {
    if s != [] {
      DistinctMultiset(s[1..]);
      assert s == [s[0]] + s[1..];
      assert s[0] !in s[1..];
      assert (set x | x in s) == {s[0]} + (set x | x in s[1..]);
    }
  }

  /** Sorting the keys of two equal dicts gives the same key order. */
  lemma SortedKeysOfSameMapping(f1: seq<Field>, f2: seq<Field>)
    requires SameMapping(f1, f2)
    ensures SortKeys(FieldKeys(f1)) == SortKeys(FieldKeys(f2))
  {
    var k1, k2 := FieldKeys(f1), FieldKeys(f2);
    DistinctMultiset(k1);
    DistinctMultiset(k2);
    assert (set x | x in k1) == (set x | x in k2);
    SortKeysPermutation(k1, k2);
  }
}
