/**
 * Stable sorting by a numeric key, as Python's `sorted(items, key=...)`
 * (also with `reverse=True`, which keeps tied items in their original
 * order) and JavaScript's `Array.prototype.sort` with a comparator both do.
 */
module StableSort {
  /** An item paired with the number it is sorted by. */
  datatype Keyed<T> = Keyed(item: T, key: real)

  /** `a` may stand before `b`: its key is no greater (ascending) or no smaller (descending). */
  predicate MayPrecede<T>(descending: bool, a: Keyed<T>, b: Keyed<T>)
  {
    if descending then a.key >= b.key else a.key <= b.key
  }

  /** Every element may stand before every later one. */
  predicate Ordered<T>(descending: bool, s: seq<Keyed<T>>)
  {
    forall i, j :: 0 <= i < j < |s| ==> MayPrecede(descending, s[i], s[j])
  }

  /** The elements of `s` whose key is `v`, in their order in `s`. */
  function WithKey<T>(v: real, s: seq<Keyed<T>>): (r: seq<Keyed<T>>)
    ensures |r| <= |s|
  {
    if s == [] then []
    else (if s[0].key == v then [s[0]] else []) + WithKey(v, s[1..])
  }

  /** Places `x` in the ordered `s` before the first element it may precede. */
  function Insert<T>(descending: bool, x: Keyed<T>, s: seq<Keyed<T>>): (r: seq<Keyed<T>>)
    ensures multiset(r) == multiset(s) + multiset{x}
  {
    if s == [] then [x]
    else if MayPrecede(descending, x, s[0]) then [x] + s
    else
      assert s == [s[0]] + s[1..];
      [s[0]] + Insert(descending, x, s[1..])
  }

  /** `sorted(s, key=key, reverse=descending)`: insertion sort from the back. */
  function SortBy<T>(descending: bool, s: seq<Keyed<T>>): (r: seq<Keyed<T>>)
    ensures multiset(r) == multiset(s)
  {
    if s == [] then []
    else
      assert s == [s[0]] + s[1..];
      Insert(descending, s[0], SortBy(descending, s[1..]))
  }

  /** The first `n` elements, or all of them when there are fewer (`s[:n]`). */
  function Take<T>(s: seq<T>, n: nat): (r: seq<T>)
    ensures |r| == if |s| < n then |s| else n
    ensures r == s[..|r|]
  {
    if |s| <= n then s else s[..n]
  }

  lemma {:induction false} InsertOrdered<T>(descending: bool, x: Keyed<T>, s: seq<Keyed<T>>)
    requires Ordered(descending, s)
    ensures Ordered(descending, Insert(descending, x, s))
  {
    if s != [] && !MayPrecede(descending, x, s[0]) {
      var rest := Insert(descending, x, s[1..]);
      InsertOrdered(descending, x, s[1..]);
      assert multiset(rest) == multiset(s[1..]) + multiset{x};
      forall j | 0 <= j < |rest| ensures MayPrecede(descending, s[0], rest[j]) {
        assert rest[j] in multiset(rest);
        if rest[j] != x {
          assert rest[j] in multiset(s[1..]);
          var k :| 0 <= k < |s[1..]| && s[1..][k] == rest[j];
          assert s[k + 1] == rest[j];
        }
      }
    }
  }

  /** The result of SortBy is ordered by the key. */
  lemma {:induction false} SortByOrdered<T>(descending: bool, s: seq<Keyed<T>>)
    ensures Ordered(descending, SortBy(descending, s))
  {
    if s != [] {
      SortByOrdered(descending, s[1..]);
      InsertOrdered(descending, s[0], SortBy(descending, s[1..]));
    }
  }

  lemma {:induction false} WithKeyAppend<T>(v: real, a: seq<Keyed<T>>, b: seq<Keyed<T>>)
    ensures WithKey(v, a + b) == WithKey(v, a) + WithKey(v, b)
  {
    if a == [] {
      assert a + b == b;
    } else {
      var ab := a + b;
      assert ab[0] == a[0] && ab[1..] == a[1..] + b;
      WithKeyAppend(v, a[1..], b);
      assert WithKey(v, ab) == (if a[0].key == v then [a[0]] else []) + WithKey(v, a[1..] + b);
    }
  }

  lemma {:induction false} InsertKeepsTies<T>(descending: bool, v: real, x: Keyed<T>, s: seq<Keyed<T>>)
    ensures WithKey(v, Insert(descending, x, s)) == WithKey(v, [x] + s)
  {
    if s != [] && !MayPrecede(descending, x, s[0]) {
      var rest := Insert(descending, x, s[1..]);
      InsertKeepsTies(descending, v, x, s[1..]);
      assert ([s[0]] + rest)[1..] == rest;
      assert ([x] + s[1..])[1..] == s[1..];
      assert ([x] + s)[1..] == s;
      assert x.key == v ==> s[0].key != v;
    }
  }

  /** Stability: for every key value, tied elements keep their original relative order. */
  lemma {:induction false} SortByStable<T>(descending: bool, v: real, s: seq<Keyed<T>>)
    ensures WithKey(v, SortBy(descending, s)) == WithKey(v, s)
  {
    if s != [] {
      var rest := SortBy(descending, s[1..]);
      InsertKeepsTies(descending, v, s[0], rest);
      SortByStable(descending, v, s[1..]);
      WithKeyAppend(v, [s[0]], rest);
      WithKeyAppend(v, [s[0]], s[1..]);
      assert s == [s[0]] + s[1..];
    }
  }

  lemma SortByLength<T>(descending: bool, s: seq<Keyed<T>>)
    ensures |SortBy(descending, s)| == |s|
  {
    assert |multiset(SortBy(descending, s))| == |multiset(s)|;
  }

  /**
   * The first `n` of the sorted items are its first `n` places, each may
   * precede every item after them, and with those they are the items of `s`.
   */
  lemma TakeSortedSplits<T>(descending: bool, s: seq<Keyed<T>>, n: nat)
    requires n <= |s|
    ensures |SortBy(descending, s)| == |s| && Take(SortBy(descending, s), n) == SortBy(descending, s)[..n]
    ensures multiset(SortBy(descending, s)[..n]) + multiset(SortBy(descending, s)[n..]) == multiset(s)
    ensures forall i, j :: 0 <= i < n <= j < |s| ==> MayPrecede(descending, SortBy(descending, s)[i], SortBy(descending, s)[j])
  {
    var sorted := SortBy(descending, s);
    SortByLength(descending, s);
    SortByOrdered(descending, s);
    SplitMultiset(sorted, n);
  }

  /** Cutting a sequence in two keeps its items. */
  lemma SplitMultiset<T>(s: seq<T>, n: nat)
    requires n <= |s|
    ensures multiset(s[..n]) + multiset(s[n..]) == multiset(s)
  {
    assert s == s[..n] + s[n..];
  }
}
