/** Strings by code point, and Python's stable `sorted` with a string key. */
module KeyOrder {
  /** `a < b` on strings. */
  predicate Before(a: string, b: string) {
    b != "" && (a == "" || a[0] < b[0] || (a[0] == b[0] && Before(a[1..], b[1..])))
  }

  lemma {:induction false} BeforeTotal(a: string, b: string)
    ensures Before(a, b) || Before(b, a) || a == b
    ensures !(Before(a, b) && Before(b, a)) && (a == b ==> !Before(a, b))
  {
    if a != "" && b != "" {
      BeforeTotal(a[1..], b[1..]);
      assert a == [a[0]] + a[1..] && b == [b[0]] + b[1..];
    }
  }

  lemma {:induction false} BeforeTransitive(a: string, b: string, c: string)
    requires Before(a, b) && Before(b, c)
    ensures Before(a, c)
  {
    if a != "" && a[0] == b[0] == c[0] {
      BeforeTransitive(a[1..], b[1..], c[1..]);
    }
  }

  /** The first difference decides, and a proper prefix comes first. */
  lemma {:induction false} BeforeIff(a: string, b: string, n: nat)
    requires n <= |a| && n <= |b| && a[..n] == b[..n] && (n < |a| && n < |b| ==> a[n] != b[n])
    ensures Before(a, b) <==> n < |b| && (n == |a| || a[n] < b[n])
  {
    if n > 0 {
      assert a[..n][0] == b[..n][0];
      assert a[1..][..n - 1] == a[..n][1..] && b[1..][..n - 1] == b[..n][1..];
      BeforeIff(a[1..], b[1..], n - 1);
    }
  }

  function Insert<T>(key: T -> string, x: T, items: seq<T>): seq<T> {
    if |items| > 0 && Before(key(items[0]), key(x)) then [items[0]] + Insert(key, x, items[1..]) else [x] + items
  }

  function SortBy<T>(key: T -> string, items: seq<T>): seq<T> {
    if |items| == 0 then [] else Insert(key, items[0], SortBy(key, items[1..]))
  }

  ghost predicate Sorted<T>(key: T -> string, items: seq<T>) {
    forall i, j :: 0 <= i < j < |items| ==> !Before(key(items[j]), key(items[i]))
  }

  ghost predicate DistinctKeys<T>(key: T -> string, items: seq<T>) {
    forall i, j :: 0 <= i < j < |items| ==> key(items[i]) != key(items[j])
  }

  lemma SortedCons<T>(key: T -> string, x: T, items: seq<T>)
    requires Sorted(key, items) && forall y :: y in items ==> !Before(key(y), key(x))
    ensures Sorted(key, [x] + items)
  {
  }

  /** What is not after the head is not after any item. */
  lemma HeadIsLeast<T>(key: T -> string, x: T, items: seq<T>, y: T)
    requires Sorted(key, items) && |items| > 0 && !Before(key(items[0]), key(x)) && y in items
    ensures !Before(key(y), key(x))
  {
    var j :| 0 <= j < |items| && items[j] == y;
    BeforeTotal(key(items[0]), key(y));
    if Before(key(y), key(x)) && Before(key(items[0]), key(y)) {
      BeforeTransitive(key(items[0]), key(y), key(x));
    }
  }

  lemma {:induction false} InsertSorted<T>(key: T -> string, x: T, items: seq<T>)
    requires Sorted(key, items)
    ensures Sorted(key, Insert(key, x, items))
    ensures multiset(Insert(key, x, items)) == multiset(items) + multiset{x}
  {
    hide Before;
    if |items| > 0 && Before(key(items[0]), key(x)) {
      var first, rest := items[0], items[1..];
      InsertSorted(key, x, rest);
      assert items == [first] + rest;
      forall y | y in Insert(key, x, rest)
        ensures !Before(key(y), key(first))
      {
        assert y in multiset(Insert(key, x, rest));
        BeforeTotal(key(x), key(first));
      }
      SortedCons(key, first, Insert(key, x, rest));
    } else {
      forall y | y in items
        ensures !Before(key(y), key(x))
      {
        HeadIsLeast(key, x, items, y);
      }
      SortedCons(key, x, items);
    }
  }

  /** Sorting permutes, and puts the keys in order. */
  lemma {:induction false} SortBySorts<T>(key: T -> string, items: seq<T>)
    ensures Sorted(key, SortBy(key, items))
    ensures multiset(SortBy(key, items)) == multiset(items)
  {
    if |items| > 0 {
      SortBySorts(key, items[1..]);
      InsertSorted(key, items[0], SortBy(key, items[1..]));
      assert items == [items[0]] + items[1..];
    }
  }

  /** Sorting is stable: the items of one key keep their order. */
  lemma {:induction false} SortByIsStable<T>(key: T -> string, items: seq<T>, k: string)
    ensures WithKey(key, SortBy(key, items), k) == WithKey(key, items, k)
  {
    if |items| > 0 {
      SortByIsStable(key, items[1..], k);
      SortBySorts(key, items[1..]);
      InsertIsStable(key, items[0], SortBy(key, items[1..]), k);
    }
  }

  function WithKey<T>(key: T -> string, items: seq<T>, k: string): seq<T> {
    if |items| == 0 then []
    else (if key(items[0]) == k then [items[0]] else []) + WithKey(key, items[1..], k)
  }

  lemma {:induction false} InsertIsStable<T>(key: T -> string, x: T, items: seq<T>, k: string)
    ensures WithKey(key, Insert(key, x, items), k) == WithKey(key, [x] + items, k)
  {
    assert ([x] + items)[1..] == items;
    if |items| > 0 && Before(key(items[0]), key(x)) {
      InsertIsStable(key, x, items[1..], k);
      assert ([x] + items[1..])[1..] == items[1..];
      BeforeTotal(key(items[0]), key(x));
      assert Insert(key, x, items)[1..] == Insert(key, x, items[1..]);
    }
  }

  /** In order and without repeated keys, the elements determine the list. */
  lemma {:induction false} SortedIsUnique<T>(key: T -> string, s: seq<T>, t: seq<T>)
    requires Sorted(key, s) && Sorted(key, t) && DistinctKeys(key, s) && DistinctKeys(key, t)
    requires forall x :: x in s <==> x in t
    ensures s == t
  {
    assert s != [] ==> s[0] in t;
    assert t != [] ==> t[0] in s;
    if s != [] && t != [] {
      BeforeTotal(key(s[0]), key(t[0]));
      var i :| 0 <= i < |t| && t[i] == s[0];
      var j :| 0 <= j < |s| && s[j] == t[0];
      assert i == 0;
      assert s == [s[0]] + s[1..] && t == [t[0]] + t[1..];
      forall x
        ensures x in s[1..] <==> x in t[1..]
      {
        if x in s[1..] { var k :| 0 < k < |s| && s[k] == x; assert x in s; assert x != s[0]; }
        if x in t[1..] { var k :| 0 < k < |t| && t[k] == x; assert x in t; assert x != t[0]; }
      }
      SortedIsUnique(key, s[1..], t[1..]);
    }
  }

  /** In order, the items of each key determine the list. */
  lemma {:induction false} SortedIsByKey<T>(key: T -> string, s: seq<T>, t: seq<T>)
    requires Sorted(key, s) && Sorted(key, t)
    requires forall k :: WithKey(key, s, k) == WithKey(key, t, k)
    ensures s == t
  {
    assert t != [] ==> WithKey(key, t, key(t[0])) == WithKey(key, s, key(t[0]));
    if s != [] {
      var k := key(s[0]);
      assert WithKey(key, s, k) == WithKey(key, t, k);
      WithKeyMembers(key, t, k);
      WithKeyMembers(key, s, key(t[0]));
      assert WithKey(key, s, key(t[0])) == WithKey(key, t, key(t[0]));
      assert k == key(t[0]) by {
        BeforeTotal(k, key(t[0]));
      }
      forall j
        ensures WithKey(key, s[1..], j) == WithKey(key, t[1..], j)
      {
        assert WithKey(key, s, j) == WithKey(key, t, j);
        assert WithKey(key, s, j)[if j == k then 1 else 0..] == WithKey(key, s[1..], j);
        assert WithKey(key, t, j)[if j == k then 1 else 0..] == WithKey(key, t[1..], j);
      }
      SortedIsByKey(key, s[1..], t[1..]);
      assert s[0] == WithKey(key, s, k)[0] == t[0];
    }
  }

  /** A key has items exactly when some position carries it. */
  lemma {:induction false} WithKeyMembers<T>(key: T -> string, items: seq<T>, k: string)
    ensures WithKey(key, items, k) != [] <==> exists i :: 0 <= i < |items| && key(items[i]) == k
  {
    if |items| > 0 {
      WithKeyMembers(key, items[1..], k);
      if key(items[0]) != k && exists i :: 0 <= i < |items| && key(items[i]) == k {
        var i :| 0 <= i < |items| && key(items[i]) == k;
        assert key(items[1..][i - 1]) == k;
      }
      if exists i :: 0 <= i < |items[1..]| && key(items[1..][i]) == k {
        var i :| 0 <= i < |items[1..]| && key(items[1..][i]) == k;
        assert key(items[i + 1]) == k;
      }
    }
  }

  /** A permutation of a list without repeated keys has no repeated keys. */
  lemma SortedDistinct<T>(key: T -> string, s: seq<T>, t: seq<T>)
    requires multiset(s) == multiset(t) && DistinctKeys(key, t)
    ensures DistinctKeys(key, s)
  {
    forall i, j | 0 <= i < j < |s|
      ensures key(s[i]) != key(s[j])
    {
      if s[i] == s[j] {
        Twice(s, i, j);
        Once(key, t, s[i]);
      } else {
        assert s[i] in multiset(t) && s[j] in multiset(t);
      }
    }
  }

  lemma Twice<T>(s: seq<T>, i: nat, j: nat)
    requires i < j < |s| && s[i] == s[j]
    ensures multiset(s)[s[i]] >= 2
  {
    assert s == s[..i] + [s[i]] + s[i + 1..j] + [s[j]] + s[j + 1..];
  }

  lemma Once<T>(key: T -> string, t: seq<T>, x: T)
    requires DistinctKeys(key, t)
    ensures multiset(t)[x] <= 1
  {
    if x in t {
      var i :| 0 <= i < |t| && t[i] == x;
      assert t == t[..i] + [x] + t[i + 1..];
      assert x !in t[..i] && x !in t[i + 1..];
      assert multiset(t) == multiset(t[..i]) + multiset{x} + multiset(t[i + 1..]);
    }
  }

  // ----- Sets in order --------------------------------------------------------------------------

  function Itself(text: string): string {
    text
  }

  /** The first occurrences. */
  function Unique(texts: seq<string>): seq<string> {
    if |texts| == 0 then []
    else
      var init, last := Unique(texts[..|texts| - 1]), texts[|texts| - 1];
      if last in init then init else init + [last]
  }

  /** `sorted(set(texts))` */
  function SortedSet(texts: seq<string>): seq<string> {
    SortBy(Itself, Unique(texts))
  }

  lemma {:induction false} UniqueIsSet(texts: seq<string>)
    ensures forall x :: x in Unique(texts) <==> x in texts
    ensures DistinctKeys(Itself, Unique(texts))
  {
    if |texts| > 0 {
      UniqueIsSet(texts[..|texts| - 1]);
      assert texts == texts[..|texts| - 1] + [texts[|texts| - 1]];
    }
  }

  /** The texts of a sorted set, each once and in order. */
  lemma SortedSetIs(texts: seq<string>)
    ensures forall x :: x in SortedSet(texts) <==> x in texts
    ensures Sorted(Itself, SortedSet(texts)) && DistinctKeys(Itself, SortedSet(texts))
  {
    var s := SortedSet(texts);
    UniqueIsSet(texts);
    SortBySorts(Itself, Unique(texts));
    forall x
      ensures x in s <==> x in texts
    {
      assert x in s <==> x in multiset(s);
      assert x in Unique(texts) <==> x in multiset(Unique(texts));
    }
    SortedDistinct(Itself, s, Unique(texts));
  }

  /** Sorted sets are equal when their members are. */
  lemma SortedSetsEqual(texts: seq<string>, texts': seq<string>)
    ensures SortedSet(texts) == SortedSet(texts') <==> forall x :: x in texts <==> x in texts'
  {
    SortedSetIs(texts);
    SortedSetIs(texts');
    if forall x :: x in texts <==> x in texts' {
      SortedIsUnique(Itself, SortedSet(texts), SortedSet(texts'));
    }
  }
}
