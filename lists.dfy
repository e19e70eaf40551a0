/**
 * The two list shapes every screen is built from: `Array.prototype.filter`
 * and a `Map` filled by a loop of `map.set(key(x), x)` calls, where a later
 * element overwrites an earlier one with the same key.
 */
module Lists {

  datatype Option<T> = None | Some(value: T)

  /** `a` is obtained from `b` by deleting elements: an in-order subsequence. */
  ghost predicate Sublist<T>(a: seq<T>, b: seq<T>)
    decreases |b|
  {
    if a == [] then true
    else if b == [] then false
    else (a[0] == b[0] && Sublist(a[1..], b[1..])) || Sublist(a, b[1..])
  }

  lemma {:induction false} SublistReflexive<T>(s: seq<T>)
    ensures Sublist(s, s)
    decreases |s|
  {
    if s != [] { SublistReflexive(s[1..]); }
  }

  /** `s.filter(p)` */
  function Filter<T>(s: seq<T>, p: T -> bool): (r: seq<T>)
    ensures Sublist(r, s)
    ensures forall i :: 0 <= i < |r| ==> p(r[i]) && r[i] in s
    ensures forall i :: 0 <= i < |s| && p(s[i]) ==> s[i] in r
  {
    if s == [] then []
    else
      var rest := Filter(s[1..], p);
      assert forall i :: 1 <= i < |s| ==> s[i] == s[1..][i - 1];
      if p(s[0]) then [s[0]] + rest else rest
  }

  /** An element is kept exactly when it passes the test. */
  lemma FilterMembers<T>(s: seq<T>, p: T -> bool, x: T)
    ensures x in Filter(s, p) <==> x in s && p(x)
  {
  }

  /** Every occurrence of a passing element is kept and every other one dropped,
      so the filtered list is determined by the test. */
  lemma {:induction false} FilterCounts<T>(s: seq<T>, p: T -> bool, x: T)
    ensures multiset(Filter(s, p))[x] == if p(x) then multiset(s)[x] else 0
  {
    if s != [] {
      FilterCounts(s[1..], p, x);
      assert s == [s[0]] + s[1..];
    }
  }

  /** Filtering shortens; it keeps the length exactly when every element passes. */
  lemma {:induction false} FilterLength<T>(s: seq<T>, p: T -> bool)
    ensures |Filter(s, p)| <= |s|
    ensures |Filter(s, p)| == |s| <==> forall i :: 0 <= i < |s| ==> p(s[i])
  {
    if s != [] {
      FilterLength(s[1..], p);
      assert forall i :: 1 <= i < |s| ==> s[i] == s[1..][i - 1];
    }
  }

  /** When every element passes, filtering returns the list unchanged. */
  lemma {:induction false} FilterAll<T>(s: seq<T>, p: T -> bool)
    requires forall i :: 0 <= i < |s| ==> p(s[i])
    ensures Filter(s, p) == s
  {
    if s != [] {
      assert forall i :: 0 <= i < |s[1..]| ==> p(s[1..][i]) by {
        forall i | 0 <= i < |s[1..]| ensures p(s[1..][i]) { assert s[1..][i] == s[i + 1]; }
      }
      FilterAll(s[1..], p);
    }
  }

  /** When no element passes, filtering returns the empty list. */
  lemma {:induction false} FilterNone<T>(s: seq<T>, p: T -> bool)
    requires forall i :: 0 <= i < |s| ==> !p(s[i])
    ensures Filter(s, p) == []
  {
    if s != [] {
      assert forall i :: 0 <= i < |s[1..]| ==> !p(s[1..][i]) by {
        forall i | 0 <= i < |s[1..]| ensures !p(s[1..][i]) { assert s[1..][i] == s[i + 1]; }
      }
      FilterNone(s[1..], p);
    }
  }

  /** Two tests that agree on every element filter the same way. */
  lemma {:induction false} FilterSameTest<T>(s: seq<T>, p: T -> bool, q: T -> bool)
    requires forall i :: 0 <= i < |s| ==> p(s[i]) == q(s[i])
    ensures Filter(s, p) == Filter(s, q)
  {
    if s != [] {
      assert forall i :: 0 <= i < |s[1..]| ==> p(s[1..][i]) == q(s[1..][i]) by {
        forall i | 0 <= i < |s[1..]| ensures p(s[1..][i]) == q(s[1..][i]) {
          assert s[1..][i] == s[i + 1];
        }
      }
      FilterSameTest(s[1..], p, q);
    }
  }

  /** Filtering by a conjunction is filtering twice. */
  lemma {:induction false} FilterBoth<T>(s: seq<T>, p: T -> bool, q: T -> bool, pq: T -> bool)
    requires forall x :: pq(x) == (p(x) && q(x))
    ensures Filter(s, pq) == Filter(Filter(s, q), p)
  {
    if s != [] {
      FilterBoth(s[1..], p, q, pq);
    }
  }

  /** A stronger test keeps no more elements than a weaker one. */
  lemma {:induction false} FilterStronger<T>(s: seq<T>, p: T -> bool, q: T -> bool)
    requires forall i :: 0 <= i < |s| && p(s[i]) ==> q(s[i])
    ensures |Filter(s, p)| <= |Filter(s, q)|
  {
    if s != [] {
      assert forall i :: 0 <= i < |s[1..]| && p(s[1..][i]) ==> q(s[1..][i]) by {
        forall i | 0 <= i < |s[1..]| && p(s[1..][i]) ensures q(s[1..][i]) { assert s[1..][i] == s[i + 1]; }
      }
      FilterStronger(s[1..], p, q);
    }
  }

  /** A test and its negation split a list: every element is kept by exactly one. */
  lemma {:induction false} FilterSplit<T>(s: seq<T>, p: T -> bool, q: T -> bool)
    requires forall x :: q(x) == !p(x)
    ensures |Filter(s, p)| + |Filter(s, q)| == |s|
  {
    if s != [] {
      FilterSplit(s[1..], p, q);
    }
  }

  /** `s.slice(0, n)` */
  function Take<T>(s: seq<T>, n: nat): (r: seq<T>)
    ensures |r| == if n < |s| then n else |s|
    ensures r <= s
  {
    if n < |s| then s[..n] else s
  }

  /** The map a loop of `map.set(key(x), x)` builds over `items`, skipping the
      elements whose key `admit` rejects: defined from the last element, so
      that a later element overwrites an earlier one. */
  function Index<K(==), V>(items: seq<V>, key: V -> K, admit: K -> bool): (m: map<K, V>)
    ensures forall k :: k in m ==> admit(k) && key(m[k]) == k
  {
    if items == [] then map[]
    else
      var m := Index(items[..|items| - 1], key, admit);
      var x := items[|items| - 1];
      if admit(key(x)) then m[key(x) := x] else m
  }

  /** Element `i` is the last one of `items` whose key is `k`. */
  ghost predicate IsLastWithKey<K, V>(items: seq<V>, key: V -> K, k: K, i: int) {
    0 <= i < |items| && key(items[i]) == k &&
    forall j :: i < j < |items| ==> key(items[j]) != k
  }

  /** A key is in the index exactly when it is admitted and some element carries it. */
  lemma {:induction false} IndexDomain<K, V>(items: seq<V>, key: V -> K, admit: K -> bool, k: K)
    ensures k in Index(items, key, admit) <==>
            admit(k) && exists i :: 0 <= i < |items| && key(items[i]) == k
  {
    if items != [] {
      var init := items[..|items| - 1];
      IndexDomain(init, key, admit, k);
      if exists i :: 0 <= i < |init| && key(init[i]) == k {
        var i :| 0 <= i < |init| && key(init[i]) == k;
        assert items[i] == init[i];
      }
      if exists i :: 0 <= i < |items| && key(items[i]) == k {
        var i :| 0 <= i < |items| && key(items[i]) == k;
        if i < |init| { assert init[i] == items[i]; }
      }
    }
  }

  /** Last write wins: the index holds, for each key, the last element carrying it. */
  lemma {:induction false} IndexLastWins<K, V>(items: seq<V>, key: V -> K, admit: K -> bool, k: K)
    requires k in Index(items, key, admit)
    ensures exists i :: IsLastWithKey(items, key, k, i) && Index(items, key, admit)[k] == items[i]
  {
    var init := items[..|items| - 1];
    var x := items[|items| - 1];
    if admit(key(x)) && key(x) == k {
      assert IsLastWithKey(items, key, k, |items| - 1);
    } else {
      IndexDomain(init, key, admit, k);
      IndexLastWins(init, key, admit, k);
      var i :| IsLastWithKey(init, key, k, i) && Index(init, key, admit)[k] == init[i];
      assert items[i] == init[i];
      assert IsLastWithKey(items, key, k, i) by {
        forall j | i < j < |items| ensures key(items[j]) != k {
          if j < |init| { assert items[j] == init[j]; }
        }
      }
    }
  }

  /** Only elements of the list are stored in the index. */
  lemma {:induction false} IndexValues<K, V>(items: seq<V>, key: V -> K, admit: K -> bool, k: K)
    requires k in Index(items, key, admit)
    ensures Index(items, key, admit)[k] in items
    ensures key(Index(items, key, admit)[k]) == k
  {
    IndexLastWins(items, key, admit, k);
  }
}
