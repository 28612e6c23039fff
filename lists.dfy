/** The optional value used wherever the source has `T | null` or `T | undefined`. */
module Wrappers {

  datatype Option<+T> = None | Some(value: T) {

    /** `value || fallback` on a value that is present or absent */
    function GetOr(fallback: T): T
    {
      match this
      case Some(v) => v
      case None => fallback
    }
  }
}

/**
 * The JavaScript array operations the application relies on (`filter`,
 * `find`, `findIndex`, `map` with a replacement, and the stable `sort`),
 * stated once, generically, with the properties the rest of the model uses.
 */
module Lists {
  import opened Wrappers

  /** `a` is obtained from `s` by deleting elements: the order of `a` is that of `s`. */
  ghost predicate IsSubsequence<T>(a: seq<T>, s: seq<T>)
    decreases |s|
  {
    a == [] || (s != [] && ((a[0] == s[0] && IsSubsequence(a[1..], s[1..])) || IsSubsequence(a, s[1..])))
  }

  /** Every list is a subsequence of itself. */
  lemma {:induction false} SubsequenceOfSelf<T>(s: seq<T>)
    ensures IsSubsequence(s, s)
  {
    if s != [] {
      SubsequenceOfSelf(s[1..]);
    }
  }

  /** `Array.prototype.filter`: the elements satisfying `p`, in their original order. */
  function Filter<T(!new)>(s: seq<T>, p: T -> bool): (r: seq<T>)
    ensures |r| <= |s|
    ensures forall x :: x in r <==> x in s && p(x)
    ensures forall i :: 0 <= i < |r| ==> p(r[i])
    ensures IsSubsequence(r, s)
  {
    if s == [] then []
    else
      var rest := Filter(s[1..], p);
      assert s == [s[0]] + s[1..];
      if p(s[0]) then
        assert ([s[0]] + rest)[1..] == rest;
        [s[0]] + rest
      else rest
  }

  /** Filtering keeps every element exactly when every element satisfies `p`
      (`filter(p).length === length` is the same test as `every(p)`). */
  lemma {:induction false} FilterKeepsAll<T(!new)>(s: seq<T>, p: T -> bool)
    ensures |Filter(s, p)| == |s| <==> forall i :: 0 <= i < |s| ==> p(s[i])
  {
    if s != [] {
      FilterKeepsAll(s[1..], p);
      assert forall i :: 1 <= i < |s| ==> s[i] == s[1..][i - 1];
    }
  }

  /** Filtering by `p` and by its negation splits the list in two. */
  lemma {:induction false} FilterPartition<T(!new)>(s: seq<T>, p: T -> bool, q: T -> bool)
    requires forall x :: q(x) == !p(x)
    ensures multiset(Filter(s, p)) + multiset(Filter(s, q)) == multiset(s)
    ensures |Filter(s, p)| + |Filter(s, q)| == |s|
  {
    if s != [] {
      FilterPartition(s[1..], p, q);
      var a, b := Filter(s[1..], p), Filter(s[1..], q);
      assert s == [s[0]] + s[1..];
      assert multiset(s) == multiset{s[0]} + multiset(s[1..]);
      if p(s[0]) {
        assert Filter(s, p) == [s[0]] + a;
        assert Filter(s, q) == b;
        assert multiset(Filter(s, p)) == multiset{s[0]} + multiset(a);
      } else {
        assert Filter(s, p) == a;
        assert Filter(s, q) == [s[0]] + b;
        assert multiset(Filter(s, q)) == multiset{s[0]} + multiset(b);
      }
    }
  }

  /** Filtering distributes over concatenation. */
  lemma {:induction false} FilterAppend<T(!new)>(s: seq<T>, t: seq<T>, p: T -> bool)
    ensures Filter(s + t, p) == Filter(s, p) + Filter(t, p)
  {
    if s == [] {
      assert s + t == t;
    } else {
      assert (s + t)[1..] == s[1..] + t;
      FilterAppend(s[1..], t, p);
    }
  }

  /** The first element the filter keeps is the first element satisfying `p`. */
  lemma {:induction false} FilterHead<T(!new)>(s: seq<T>, p: T -> bool)
    requires FindIndex(s, p) >= 0
    ensures Filter(s, p) != [] && Filter(s, p)[0] == s[FindIndex(s, p)]
  {
    if !p(s[0]) {
      FilterHead(s[1..], p);
    }
  }

  /** `Array.prototype.findIndex`: the index of the first element satisfying `p`, or -1. */
  function FindIndex<T>(s: seq<T>, p: T -> bool): (r: int)
    ensures -1 <= r < |s|
    ensures r == -1 <==> forall i :: 0 <= i < |s| ==> !p(s[i])
    ensures r >= 0 ==> p(s[r]) && forall i :: 0 <= i < r ==> !p(s[i])
  {
    if s == [] then -1
    else if p(s[0]) then 0
    else
      var k := FindIndex(s[1..], p);
      assert forall i :: 1 <= i < |s| ==> s[i] == s[1..][i - 1];
      if k == -1 then -1 else k + 1
  }

  /** `Array.prototype.find`: the first element satisfying `p`, or nothing. */
  function Find<T>(s: seq<T>, p: T -> bool): (r: Option<T>)
    ensures r.None? <==> forall i :: 0 <= i < |s| ==> !p(s[i])
    ensures r.Some? ==> r.value in s && p(r.value)
    ensures r.Some? ==> exists k :: 0 <= k < |s| && s[k] == r.value && forall i :: 0 <= i < k ==> !p(s[i])
  {
    var k := FindIndex(s, p);
    if k == -1 then None else Some(s[k])
  }

  /** `s.map(x => key(x) === id ? y : x)`: every element whose key is `id` is replaced by `y`. */
  function ReplaceMatching<T>(s: seq<T>, key: T -> string, id: string, y: T): (r: seq<T>)
    ensures |r| == |s|
    ensures forall i :: 0 <= i < |s| && key(s[i]) == id ==> r[i] == y
    ensures forall i :: 0 <= i < |s| && key(s[i]) != id ==> r[i] == s[i]
  {
    if s == [] then []
    else
      assert forall i :: 1 <= i < |s| ==> s[i] == s[1..][i - 1];
      [if key(s[0]) == id then y else s[0]] + ReplaceMatching(s[1..], key, id, y)
  }

  /** `s.filter(x => key(x) !== id)`: every element whose key is `id` is dropped. */
  function RemoveMatching<T(!new)>(s: seq<T>, key: T -> string, id: string): (r: seq<T>)
    ensures forall x :: x in r <==> x in s && key(x) != id
    ensures IsSubsequence(r, s)
    ensures |r| <= |s|
  {
    if s == [] then []
    else
      var rest := RemoveMatching(s[1..], key, id);
      assert s == [s[0]] + s[1..];
      if key(s[0]) != id then
        assert ([s[0]] + rest)[1..] == rest;
        [s[0]] + rest
      else rest
  }

  /** No two elements share a key. */
  ghost predicate UniqueKeys<T>(s: seq<T>, key: T -> string)
  {
    forall i, j :: 0 <= i < j < |s| ==> key(s[i]) != key(s[j])
  }

  /** A subsequence holds only elements of the list it was taken from. */
  lemma {:induction false} SubsequenceMembers<T>(a: seq<T>, s: seq<T>)
    requires IsSubsequence(a, s)
    ensures forall x :: x in a ==> x in s
    decreases |s|
  {
    if a != [] {
      if a[0] == s[0] && IsSubsequence(a[1..], s[1..]) {
        SubsequenceMembers(a[1..], s[1..]);
        assert a == [a[0]] + a[1..];
      } else {
        SubsequenceMembers(a, s[1..]);
      }
    }
  }

  /** Deleting elements cannot make two keys collide. */
  lemma {:induction false} SubsequenceKeepsUniqueKeys<T>(a: seq<T>, s: seq<T>, key: T -> string)
    requires IsSubsequence(a, s)
    requires UniqueKeys(s, key)
    ensures UniqueKeys(a, key)
    decreases |s|
  {
    if a != [] {
      assert UniqueKeys(s[1..], key) by {
        forall i, j | 0 <= i < j < |s[1..]|
          ensures key(s[1..][i]) != key(s[1..][j])
        {
          assert s[1..][i] == s[i + 1] && s[1..][j] == s[j + 1];
        }
      }
      if a[0] == s[0] && IsSubsequence(a[1..], s[1..]) {
        SubsequenceKeepsUniqueKeys(a[1..], s[1..], key);
        SubsequenceMembers(a[1..], s[1..]);
        forall i, j | 0 <= i < j < |a|
          ensures key(a[i]) != key(a[j])
        {
          if i == 0 {
            assert a[j] == a[1..][j - 1];
            assert a[j] in s[1..];
            var m :| 0 <= m < |s[1..]| && s[1..][m] == a[j];
            assert s[m + 1] == a[j];
          } else {
            assert a[i] == a[1..][i - 1] && a[j] == a[1..][j - 1];
          }
        }
      } else {
        SubsequenceKeepsUniqueKeys(a, s[1..], key);
      }
    }
  }

  /** Removing only elements whose key is absent changes nothing. */
  lemma {:induction false} RemoveAbsent<T(!new)>(s: seq<T>, key: T -> string, id: string)
    requires forall x :: x in s ==> key(x) != id
    ensures RemoveMatching(s, key, id) == s
  {
    if s != [] {
      RemoveAbsent(s[1..], key, id);
    }
  }

  /** Removing twice removes nothing more. */
  lemma RemoveIsIdempotent<T(!new)>(s: seq<T>, key: T -> string, id: string)
    ensures RemoveMatching(RemoveMatching(s, key, id), key, id) == RemoveMatching(s, key, id)
  {
    RemoveAbsent(RemoveMatching(s, key, id), key, id);
  }

  /** Replacing the element with key `id` by one with the same key keeps keys unique. */
  lemma ReplaceKeepsUniqueKeys<T>(s: seq<T>, key: T -> string, id: string, y: T)
    requires UniqueKeys(s, key)
    requires key(y) == id
    ensures UniqueKeys(ReplaceMatching(s, key, id, y), key)
  {
    var r := ReplaceMatching(s, key, id, y);
    forall i, j | 0 <= i < j < |r|
      ensures key(r[i]) != key(r[j])
    {
      assert key(s[i]) != key(s[j]);
    }
  }

  /** Removing an element that was just put in front undoes the insertion. */
  lemma PrependThenRemove<T(!new)>(s: seq<T>, key: T -> string, y: T)
    requires forall x :: x in s ==> key(x) != key(y)
    ensures RemoveMatching([y] + s, key, key(y)) == s
  {
    assert ([y] + s)[1..] == s;
    RemoveAbsent(s, key, key(y));
  }

  /** Removing an element that was just appended undoes the insertion. */
  lemma {:induction false} AppendThenRemove<T(!new)>(s: seq<T>, key: T -> string, y: T)
    requires forall x :: x in s ==> key(x) != key(y)
    ensures RemoveMatching(s + [y], key, key(y)) == s
  {
    if s == [] {
      assert [y][1..] == [];
    } else {
      assert (s + [y])[1..] == s[1..] + [y];
      AppendThenRemove(s[1..], key, y);
      assert s == [s[0]] + s[1..];
    }
  }

  /** Replacing by an element with the same key and then removing that key
      is the same as removing it straight away. */
  lemma {:induction false} ReplaceThenRemove<T(!new)>(s: seq<T>, key: T -> string, id: string, y: T)
    requires key(y) == id
    ensures RemoveMatching(ReplaceMatching(s, key, id, y), key, id) == RemoveMatching(s, key, id)
    decreases |s|
  {
    if s != [] {
      ReplaceThenRemove(s[1..], key, id, y);
      var r := ReplaceMatching(s, key, id, y);
      assert r == [r[0]] + ReplaceMatching(s[1..], key, id, y);
      if key(s[0]) == id {
        assert key(r[0]) == id;
        assert RemoveMatching(r, key, id) == RemoveMatching(r[1..], key, id);
      } else {
        assert r[0] == s[0];
        assert RemoveMatching(r, key, id) == [s[0]] + RemoveMatching(r[1..], key, id);
      }
    }
  }

  /** The key the stable sort orders by: `major` first, then `minor`. */
  datatype SortKey = SortKey(major: int, minor: int)

  /** Two lists with the same multiset hold the same elements. */
  lemma SameElements<T>(a: seq<T>, b: seq<T>)
    requires multiset(a) == multiset(b)
    ensures forall x :: x in a <==> x in b
  {
    forall x
      ensures x in a <==> x in b
    {
      assert x in a <==> x in multiset(a);
      assert x in b <==> x in multiset(b);
    }
  }

  predicate KeyLe(a: SortKey, b: SortKey)
  {
    a.major < b.major || (a.major == b.major && a.minor <= b.minor)
  }

  ghost predicate SortedBy<T>(s: seq<T>, key: T -> SortKey)
  {
    forall i, j :: 0 <= i < j < |s| ==> KeyLe(key(s[i]), key(s[j]))
  }

  /** Inserts `x` into a sorted list in front of every element whose key is
      not smaller (so after all smaller ones and before all equal ones). */
  function Insert<T>(x: T, s: seq<T>, key: T -> SortKey): (r: seq<T>)
    requires SortedBy(s, key)
    ensures SortedBy(r, key)
    ensures multiset(r) == multiset(s) + multiset{x}
    ensures |r| == |s| + 1
  {
    if s == [] || KeyLe(key(x), key(s[0])) then [x] + s
    else
      var rest := Insert(x, s[1..], key);
      InsertAfterSmaller(x, s, key, rest);
      [s[0]] + rest
  }

  /** The proof step of `Insert` when `x` goes after the head `s[0]`. */
  lemma InsertAfterSmaller<T>(x: T, s: seq<T>, key: T -> SortKey, rest: seq<T>)
    requires s != [] && SortedBy(s, key) && !KeyLe(key(x), key(s[0]))
    requires SortedBy(rest, key) && multiset(rest) == multiset(s[1..]) + multiset{x}
    ensures SortedBy([s[0]] + rest, key)
    ensures multiset([s[0]] + rest) == multiset(s) + multiset{x}
  {
    assert s == [s[0]] + s[1..];
    var r := [s[0]] + rest;
    forall j | 0 < j < |r| ensures KeyLe(key(s[0]), key(r[j])) {
      var y := rest[j - 1];
      assert y in multiset(rest);
      if y != x {
        assert y in multiset(s[1..]);
        var k :| 0 <= k < |s[1..]| && s[1..][k] == y;
        assert s[k + 1] == y;
      }
    }
    forall i, j | 0 <= i < j < |r| ensures KeyLe(key(r[i]), key(r[j])) {
      if i > 0 {
        assert r[i] == rest[i - 1] && r[j] == rest[j - 1];
      }
    }
  }

  /** The stable sort `[...s].sort(cmp)` for a comparator that orders by `key`. */
  function StableSort<T>(s: seq<T>, key: T -> SortKey): (r: seq<T>)
    ensures SortedBy(r, key)
    ensures multiset(r) == multiset(s)
    ensures |r| == |s|
  {
    if s == [] then []
    else
      assert s == [s[0]] + s[1..];
      Insert(s[0], StableSort(s[1..], key), key)
  }

  /** The elements whose key is `k`, in list order. */
  function WithKey<T>(s: seq<T>, key: T -> SortKey, k: SortKey): seq<T>
  {
    if s == [] then [] else (if key(s[0]) == k then [s[0]] else []) + WithKey(s[1..], key, k)
  }

  lemma {:induction false} InsertWithKey<T>(x: T, s: seq<T>, key: T -> SortKey, k: SortKey)
    requires SortedBy(s, key)
    ensures WithKey(Insert(x, s, key), key, k) == (if key(x) == k then [x] else []) + WithKey(s, key, k)
  {
    if s == [] || KeyLe(key(x), key(s[0])) {
      assert ([x] + s)[1..] == s;
    } else {
      InsertWithKey(x, s[1..], key, k);
      var r := Insert(x, s, key);
      assert r[0] == s[0] && r[1..] == Insert(x, s[1..], key);
      assert key(s[0]) != key(x);
    }
  }

  /** Stability: sorting keeps the relative order of elements with equal keys. */
  lemma {:induction false} StableSortIsStable<T>(s: seq<T>, key: T -> SortKey, k: SortKey)
    ensures WithKey(StableSort(s, key), key, k) == WithKey(s, key, k)
  {
    if s != [] {
      StableSortIsStable(s[1..], key, k);
      InsertWithKey(s[0], StableSort(s[1..], key), key, k);
    }
  }
}
