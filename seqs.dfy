/**
 * Generic sequence operations behind the repository's `find`, `findIndex`
 * and `filter` calls. Elements are compared through a key function
 * (`p => p.id`, `t => t.projectId`, `t => t.status`).
 */
module Seqs {
  import opened Options

  /** `i` is the first index of `s` whose key is `k`. */
  predicate IsFirst<T(!new), K(==)>(s: seq<T>, key: T -> K, k: K, i: nat)
  {
    i < |s| && key(s[i]) == k && forall j :: 0 <= j < i ==> key(s[j]) != k
  }

  /** `Array.prototype.findIndex` on a key comparison; `None` stands for -1. */
  function FindIndex<T(!new), K(==)>(s: seq<T>, key: T -> K, k: K): (r: Option<nat>)
    ensures r.None? <==> forall i :: 0 <= i < |s| ==> key(s[i]) != k
    ensures r.Some? ==> IsFirst(s, key, k, r.value)
  {
    if |s| == 0 then None
    else if key(s[0]) == k then Some(0)
    else match FindIndex(s[1..], key, k)
      case None => None
      case Some(i) => Some(i + 1)
  }

  /** `Array.prototype.find` on a key comparison; `None` stands for `undefined`. */
  function Find<T(!new), K(==)>(s: seq<T>, key: T -> K, k: K): (r: Option<T>)
    ensures r.None? <==> forall x :: x in s ==> key(x) != k
    ensures r.Some? ==> exists i: nat :: IsFirst(s, key, k, i) && s[i] == r.value
  {
    match FindIndex(s, key, k)
    case None => None
    case Some(i) => Some(s[i])
  }

  /**
   * `Array.prototype.filter` on a key comparison: keeps the elements whose
   * key equals `k` when `keep` is true, and those whose key differs when it
   * is false.
   */
  function Select<T(!new), K(==)>(s: seq<T>, key: T -> K, k: K, keep: bool): (r: seq<T>)
    ensures |r| <= |s|
    ensures forall x :: x in r <==> x in s && (key(x) == k) == keep
  {
    if |s| == 0 then []
    else
      var rest := Select(s[1..], key, k, keep);
      assert forall x :: x in s <==> x == s[0] || x in s[1..];
      if (key(s[0]) == k) == keep then [s[0]] + rest else rest
  }

  /** `s.filter(x => key(x) === k)` */
  function Only<T(!new), K(==)>(s: seq<T>, key: T -> K, k: K): (r: seq<T>)
    ensures |r| <= |s|
    ensures forall x :: x in r <==> x in s && key(x) == k
  {
    Select(s, key, k, true)
  }

  /** `s.filter(x => key(x) !== k)` */
  function Without<T(!new), K(==)>(s: seq<T>, key: T -> K, k: K): (r: seq<T>)
    ensures |r| <= |s|
    ensures forall x :: x in r <==> x in s && key(x) != k
  {
    Select(s, key, k, false)
  }

  /** No two elements of `s` share a key. */
  predicate DistinctKeys<T, K(==)>(s: seq<T>, key: T -> K)
  {
    forall i, j :: 0 <= i < j < |s| ==> key(s[i]) != key(s[j])
  }

  /** Filtering distributes over concatenation: survivors keep their relative order. */
  lemma {:induction false} SelectAppend<T(!new), K>(a: seq<T>, b: seq<T>, key: T -> K, k: K, keep: bool)
    ensures Select(a + b, key, k, keep) == Select(a, key, k, keep) + Select(b, key, k, keep)
  {
    if |a| == 0 {
      assert a + b == b;
    } else {
      assert (a + b)[0] == a[0];
      assert (a + b)[1..] == a[1..] + b;
      SelectAppend(a[1..], b, key, k, keep);
      var tail := Select(a[1..] + b, key, k, keep);
      assert Select(a + b, key, k, keep) == (if (key(a[0]) == k) == keep then [a[0]] + tail else tail);
    }
  }

  /** A filter that every element passes returns its input unchanged. */
  lemma {:induction false} SelectAll<T(!new), K>(s: seq<T>, key: T -> K, k: K, keep: bool)
    requires forall x :: x in s ==> (key(x) == k) == keep
    ensures Select(s, key, k, keep) == s
  {
    if |s| > 0 {
      assert s[0] in s;
      assert forall x :: x in s[1..] ==> x in s;
      SelectAll(s[1..], key, k, keep);
      assert [s[0]] + s[1..] == s;
    }
  }

  /** A filter that no element passes returns the empty sequence. */
  lemma {:induction false} SelectNone<T(!new), K>(s: seq<T>, key: T -> K, k: K, keep: bool)
    requires forall x :: x in s ==> (key(x) == k) != keep
    ensures Select(s, key, k, keep) == []
  {
    if |s| > 0 {
      assert s[0] in s;
      assert forall x :: x in s[1..] ==> x in s;
      SelectNone(s[1..], key, k, keep);
    }
  }

  /** Filtering twice with the same test is filtering once. */
  lemma SelectIdempotent<T(!new), K>(s: seq<T>, key: T -> K, k: K, keep: bool)
    ensures Select(Select(s, key, k, keep), key, k, keep) == Select(s, key, k, keep)
  {
    SelectAll(Select(s, key, k, keep), key, k, keep);
  }

  /** The two complementary filters split `s` without losing or duplicating an element. */
  lemma {:induction false} SelectPartition<T(!new), K>(s: seq<T>, key: T -> K, k: K)
    ensures multiset(Only(s, key, k)) + multiset(Without(s, key, k)) == multiset(s)
    ensures |Only(s, key, k)| + |Without(s, key, k)| == |s|
  {
    if |s| > 0 {
      SelectPartition(s[1..], key, k);
      assert s == [s[0]] + s[1..];
    }
  }

  /** A filter keeps keys distinct, whatever key it filters on. */
  lemma {:induction false} SelectDistinct<T(!new), D, K>(s: seq<T>, id: T -> D, key: T -> K, k: K, keep: bool)
    requires DistinctKeys(s, id)
    ensures DistinctKeys(Select(s, key, k, keep), id)
  {
    if |s| > 0 {
      SelectDistinct(s[1..], id, key, k, keep);
      var rest := Select(s[1..], key, k, keep);
      if (key(s[0]) == k) == keep {
        forall j | 0 <= j < |rest| ensures id(rest[j]) != id(s[0]) {
          assert rest[j] in s[1..];
          var m :| 0 <= m < |s[1..]| && s[1..][m] == rest[j];
          assert s[m + 1] == rest[j];
        }
        var r := [s[0]] + rest;
        forall i, j | 0 <= i < j < |r| ensures id(r[i]) != id(r[j]) {
          if i > 0 {
            assert r[i] == rest[i - 1] && r[j] == rest[j - 1];
          }
        }
      }
    }
  }

  /** Appending an element with a new key keeps keys distinct. */
  lemma AppendDistinct<T, K>(s: seq<T>, v: T, key: T -> K)
    requires DistinctKeys(s, key) && forall i :: 0 <= i < |s| ==> key(s[i]) != key(v)
    ensures DistinctKeys(s + [v], key)
  {
  }

  /** Replacing an element by one with the same key does not move any first match. */
  lemma {:induction false} FindIndexAfterUpdate<T(!new), K>(s: seq<T>, i: nat, v: T, key: T -> K, k: K)
    requires i < |s| && key(v) == key(s[i])
    ensures FindIndex(s[i := v], key, k) == FindIndex(s, key, k)
  {
    if i > 0 && key(s[0]) != k {
      assert s[i := v][1..] == s[1..][i - 1 := v];
      FindIndexAfterUpdate(s[1..], i - 1, v, key, k);
    }
  }

  /** Appending never changes an existing first match, and finds the new element when its key is new. */
  lemma {:induction false} FindIndexAppend<T(!new), K>(s: seq<T>, v: T, key: T -> K, k: K)
    ensures FindIndex(s, key, k).Some? ==> FindIndex(s + [v], key, k) == FindIndex(s, key, k)
    ensures FindIndex(s, key, k).None? && key(v) == k ==> FindIndex(s + [v], key, k) == Some(|s|)
  {
    if |s| > 0 && key(s[0]) != k {
      assert (s + [v])[1..] == s[1..] + [v];
      FindIndexAppend(s[1..], v, key, k);
    }
  }

  /**
   * Appending keeps every existing first match, and a key that was absent
   * is then found on the appended element.
   */
  lemma FindAppend<T(!new), K>(s: seq<T>, v: T, key: T -> K, k: K)
    ensures Find(s, key, k).Some? ==> Find(s + [v], key, k) == Find(s, key, k)
    ensures Find(s, key, k).None? && key(v) == k ==> Find(s + [v], key, k) == Some(v)
    ensures Find(s, key, k).None? && key(v) != k ==> Find(s + [v], key, k).None?
  {
    FindIndexAppend(s, v, key, k);
    assert forall x :: x in s + [v] <==> x in s || x == v;
    if FindIndex(s, key, k).Some? {
      assert (s + [v])[FindIndex(s, key, k).value] == s[FindIndex(s, key, k).value];
    }
  }

  /** `Select` over a list with a known head. */
  lemma SelectCons<T(!new), K>(x: T, rest: seq<T>, key: T -> K, k: K, keep: bool)
    ensures Select([x] + rest, key, k, keep) ==
      (if (key(x) == k) == keep then [x] else []) + Select(rest, key, k, keep)
  {
    assert ([x] + rest)[0] == x;
    assert ([x] + rest)[1..] == rest;
  }

  /** Replacing an element by one with the same key keeps the keys distinct. */
  lemma UpdateDistinct<T, K>(s: seq<T>, i: nat, v: T, key: T -> K)
    requires i < |s| && key(v) == key(s[i]) && DistinctKeys(s, key)
    ensures DistinctKeys(s[i := v], key)
  {
    assert forall j :: 0 <= j < |s| ==> key(s[i := v][j]) == key(s[j]);
  }
}
