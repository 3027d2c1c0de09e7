/** Python's `sorted` over dictionary keys: strings ordered lexicographically by
    code point, sorted with a stable insertion sort. */
module Keys {
  import opened Common

  /** `a < b` on Python strings. */
  predicate StrLess(a: string, b: string)
  {
    if a == [] then b != []
    else if b == [] then false
    else a[0] < b[0] || (a[0] == b[0] && StrLess(a[1..], b[1..]))
  }

  predicate StrLeq(a: string, b: string)
  {
    a == b || StrLess(a, b)
  }

  lemma {:induction false} StrLessIrreflexive(a: string)
    ensures !StrLess(a, a)
  {
    if a != [] {
      StrLessIrreflexive(a[1..]);
    }
  }

  lemma {:induction false} StrLessTransitive(a: string, b: string, c: string)
    requires StrLess(a, b) && StrLess(b, c)
    ensures StrLess(a, c)
  {
    if a != [] && a[0] == b[0] && b[0] == c[0] {
      StrLessTransitive(a[1..], b[1..], c[1..]);
    }
  }

  lemma {:induction false} StrLessTotal(a: string, b: string)
    requires a != b
    ensures StrLess(a, b) || StrLess(b, a)
  {
    if a != [] && b != [] && a[0] == b[0] {
      assert a == [a[0]] + a[1..] && b == [b[0]] + b[1..];
      StrLessTotal(a[1..], b[1..]);
    }
  }

  lemma StrLeqAntisymmetric(a: string, b: string)
    requires StrLeq(a, b) && StrLeq(b, a)
    ensures a == b
  {
    if a != b {
      StrLessTransitive(a, b, a);
      StrLessIrreflexive(a);
    }
  }

  lemma StrLeqTransitive(a: string, b: string, c: string)
    requires StrLeq(a, b) && StrLeq(b, c)
    ensures StrLeq(a, c)
  {
    if a != b && b != c {
      StrLessTransitive(a, b, c);
    }
  }

  predicate Sorted(s: seq<string>)
  {
    forall i, j | 0 <= i < j < |s| :: StrLeq(s[i], s[j])
  }

  /** Inserts `k` before the first element it does not exceed. */
  function Insert(k: string, s: seq<string>): (r: seq<string>)
    ensures multiset(r) == multiset(s) + multiset{k}
  {
    if s == [] then [k]
    else if StrLeq(k, s[0]) then [k] + s
    else
      assert s == [s[0]] + s[1..];
      [s[0]] + Insert(k, s[1..])
  }

  /** Inserting into a sorted sequence keeps it sorted. */
  lemma {:induction false} InsertSorted(k: string, s: seq<string>)
    requires Sorted(s)
    ensures Sorted(Insert(k, s))
  {
    if s == [] {
    } else if StrLeq(k, s[0]) {
      InsertFront(k, s);
    } else {
      StrLessTotal(k, s[0]);
      var rest := Insert(k, s[1..]);
      InsertSorted(k, s[1..]);
      assert s == [s[0]] + s[1..];
      forall x | x in multiset(rest) ensures StrLeq(s[0], x) {
        if x != k {
          assert x in s[1..];
        }
      }
      SortedCons(s[0], rest);
    }
  }

  lemma InsertFront(k: string, s: seq<string>)
    requires Sorted(s) && s != [] && StrLeq(k, s[0])
    ensures Sorted([k] + s)
  {
    forall j | 0 < j < |s| {
      StrLeqTransitive(k, s[0], s[j]);
    }
  }

  lemma SortedCons(x: string, s: seq<string>)
    requires Sorted(s)
    requires forall y | y in multiset(s) :: StrLeq(x, y)
    ensures Sorted([x] + s)
  {
    forall j | 0 <= j < |s| ensures StrLeq(x, s[j]) {
      assert s[j] in multiset(s);
    }
  }

  /** `sorted(keys)`. */
  function SortKeys(keys: seq<string>): (r: seq<string>)
    ensures multiset(r) == multiset(keys)
  {
    if keys == [] then []
    else
      assert keys == [keys[0]] + keys[1..];
      Insert(keys[0], SortKeys(keys[1..]))
  }

  /** Every key `sorted` returns is one of its input keys. */
  lemma SortKeysAreKeys(keys: seq<string>)
    ensures forall j | 0 <= j < |SortKeys(keys)| :: SortKeys(keys)[j] in keys
  {
    var r := SortKeys(keys);
    forall j | 0 <= j < |r| ensures r[j] in keys {
      assert r[j] in multiset(r);
    }
  }

  /** `sorted` returns its keys in ascending order. */
  lemma {:induction false} SortKeysSorted(keys: seq<string>)
    ensures Sorted(SortKeys(keys))
  {
    if keys != [] {
      SortKeysSorted(keys[1..]);
      InsertSorted(keys[0], SortKeys(keys[1..]));
    }
  }

  /** The head of a sorted sequence is below every element of it. */
  lemma SortedHeadLeast(s: seq<string>, x: string)
    requires Sorted(s) && x in multiset(s)
    ensures StrLeq(s[0], x)
  {
    var i :| 0 <= i < |s| && s[i] == x;
    if i > 0 {
      assert StrLeq(s[0], s[i]);
    }
  }

  lemma TailMultiset(s: seq<string>)
    requires s != []
    ensures multiset(s[1..]) == multiset(s) - multiset{s[0]}
  {
    assert s == [s[0]] + s[1..];
  }

  /** A sorted arrangement of a multiset of keys is unique. */
  lemma {:induction false} SortedUnique(a: seq<string>, b: seq<string>)
    requires Sorted(a) && Sorted(b) && multiset(a) == multiset(b)
    ensures a == b
  {
    if a != [] {
      assert a[0] in multiset(a) && b != [] && b[0] in multiset(b);
      SortedHeadLeast(b, a[0]);
      SortedHeadLeast(a, b[0]);
      StrLeqAntisymmetric(a[0], b[0]);
      TailMultiset(a);
      TailMultiset(b);
      SortedUnique(a[1..], b[1..]);
      assert a == [a[0]] + a[1..] && b == [b[0]] + b[1..];
    }
  }

  /** Sorting ignores the order the keys come in. */
  lemma SortKeysPermutation(a: seq<string>, b: seq<string>)
    requires multiset(a) == multiset(b)
    ensures SortKeys(a) == SortKeys(b)
  {
    SortKeysSorted(a);
    SortKeysSorted(b);
    SortedUnique(SortKeys(a), SortKeys(b));
  }

  /** Sorting sorted keys changes nothing. */
  lemma SortKeysIdempotent(keys: seq<string>)
    ensures SortKeys(SortKeys(keys)) == SortKeys(keys)
  {
    SortKeysSorted(keys);
    SortKeysSorted(SortKeys(keys));
    SortedUnique(SortKeys(SortKeys(keys)), SortKeys(keys));
  }

  /** The position of the first occurrence of `k`. */
  function IndexOf(keys: seq<string>, k: string): (r: Option<nat>)
    ensures r.Some? <==> k in keys
    ensures r.Some? ==> r.value < |keys| && keys[r.value] == k
    ensures r.Some? ==> forall j | 0 <= j < r.value :: keys[j] != k
  {
    if keys == [] then None
    else if keys[0] == k then Some(0)
    else
      match IndexOf(keys[1..], k)
      case None => None
      case Some(i) => Some(i + 1)
  }
}
