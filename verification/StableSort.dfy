/** The stable ascending sort behind `list.sort(key=...)`, on lexicographic
    pairs of integers. */
module StableSort {
  type Key = (int, int)

  predicate Leq(a: Key, b: Key) {
    a.0 < b.0 || (a.0 == b.0 && a.1 <= b.1)
  }

  /** Puts `x` behind every element whose key is not greater. */
  function Insert<T>(s: seq<T>, x: T, key: T -> Key): seq<T> {
    if s == [] || Leq(key(s[|s| - 1]), key(x)) then s + [x]
    else Insert(s[..|s| - 1], x, key) + [s[|s| - 1]]
  }

  function Sort<T>(s: seq<T>, key: T -> Key): seq<T> {
    if s == [] then [] else Insert(Sort(s[..|s| - 1], key), s[|s| - 1], key)
  }

  ghost predicate Sorted<T>(s: seq<T>, key: T -> Key) {
    forall i, j | 0 <= i < j < |s| :: Leq(key(s[i]), key(s[j]))
  }

  /** The elements with key `k`, in order. */
  ghost function Band<T>(s: seq<T>, key: T -> Key, k: Key): seq<T> {
    if s == [] then []
    else Band(s[..|s| - 1], key, k) + (if key(s[|s| - 1]) == k then [s[|s| - 1]] else [])
  }

  /** The sort rearranges, orders, and keeps the order inside every key. */
  lemma {:induction false} SortIsStable<T>(s: seq<T>, key: T -> Key)
    ensures multiset(Sort(s, key)) == multiset(s)
    ensures Sorted(Sort(s, key), key)
    ensures forall k :: Band(Sort(s, key), key, k) == Band(s, key, k)
  {
    if s != [] {
      var init, x := s[..|s| - 1], s[|s| - 1];
      SortIsStable(init, key);
      InsertContents(Sort(init, key), x, key);
      InsertSorted(Sort(init, key), x, key);
      assert s == init + [x];
      forall k
        ensures Band(Sort(s, key), key, k) == Band(s, key, k)
      {
        InsertBand(Sort(init, key), x, key, k);
      }
    }
  }

  lemma {:induction false} InsertSorted<T>(s: seq<T>, x: T, key: T -> Key)
    requires Sorted(s, key)
    ensures Sorted(Insert(s, x, key), key)
  {
    if s != [] && !Leq(key(s[|s| - 1]), key(x)) {
      var init, last := s[..|s| - 1], s[|s| - 1];
      InsertSorted(init, x, key);
      InsertContents(init, x, key);
      var inner := Insert(init, x, key);
      forall y <- inner
        ensures Leq(key(y), key(last))
      {
        assert y in multiset(inner);
        assert y in init || y == x;
      }
      SortedSnoc(inner, last, key);
    }
  }

  lemma {:induction false} InsertBand<T>(s: seq<T>, x: T, key: T -> Key, k: Key)
    ensures Band(Insert(s, x, key), key, k) == Band(s, key, k) + (if key(x) == k then [x] else [])
  {
    if s == [] || Leq(key(s[|s| - 1]), key(x)) {
      BandSnoc(s, x, key, k);
    } else {
      var init, last := s[..|s| - 1], s[|s| - 1];
      InsertBand(init, x, key, k);
      BandSnoc(Insert(init, x, key), last, key, k);
    }
  }

  lemma {:induction false} InsertContents<T>(s: seq<T>, x: T, key: T -> Key)
    ensures multiset(Insert(s, x, key)) == multiset(s) + multiset{x}
  {
    if s != [] {
      InsertContents(s[..|s| - 1], x, key);
      assert s == s[..|s| - 1] + [s[|s| - 1]];
    }
  }

  lemma SortedSnoc<T>(s: seq<T>, x: T, key: T -> Key)
    requires Sorted(s, key) && forall y <- s :: Leq(key(y), key(x))
    ensures Sorted(s + [x], key)
  {
  }

  lemma BandSnoc<T>(s: seq<T>, x: T, key: T -> Key, k: Key)
    ensures Band(s + [x], key, k) == Band(s, key, k) + (if key(x) == k then [x] else [])
  {
  }

  /** These three properties leave no choice: a rearrangement that is ordered and
      keeps the order inside every key is the sort. */
  lemma {:induction false} StableSortIsUnique<T>(a: seq<T>, b: seq<T>, key: T -> Key)
    requires Sorted(a, key) && Sorted(b, key)
    requires forall k :: Band(a, key, k) == Band(b, key, k)
    ensures a == b
  {
    if a == [] || b == [] {
      SameEmptiness(a, b, key);
      SameEmptiness(b, a, key);
    } else {
      var init, init' := a[..|a| - 1], b[..|b| - 1];
      SameLast(a, b, key);
      forall k
        ensures Band(init, key, k) == Band(init', key, k)
      {
        CutBand(a, b, key, k);
      }
      StableSortIsUnique(init, init', key);
      assert a == init + [a[|a| - 1]] && b == init' + [b[|b| - 1]];
    }
  }

  lemma SameEmptiness<T>(a: seq<T>, b: seq<T>, key: T -> Key)
    requires forall k :: Band(a, key, k) == Band(b, key, k)
    ensures a == [] ==> b == []
  {
    if b != [] { LastBand(b, key); }
  }

  /** The last element belongs to the greatest key, and closes that key's band. */
  lemma SameLast<T>(a: seq<T>, b: seq<T>, key: T -> Key)
    requires a != [] && b != [] && Sorted(a, key) && Sorted(b, key)
    requires forall k :: Band(a, key, k) == Band(b, key, k)
    ensures a[|a| - 1] == b[|b| - 1]
  {
    var k, m := key(a[|a| - 1]), key(b[|b| - 1]);
    hide Band, Sorted;
    LastBand(a, key);
    LastBand(b, key);
    BandMember(b, key, k);
    BandMember(a, key, m);
    var x :| x in b && key(x) == k;
    var y :| y in a && key(y) == m;
    LastIsGreatest(b, x, key);
    LastIsGreatest(a, y, key);
    assert k == m;
  }

  lemma LastIsGreatest<T>(s: seq<T>, x: T, key: T -> Key)
    requires Sorted(s, key) && x in s
    ensures Leq(key(x), key(s[|s| - 1]))
  {
  }

  lemma CutBand<T>(a: seq<T>, b: seq<T>, key: T -> Key, k: Key)
    requires a != [] && b != [] && a[|a| - 1] == b[|b| - 1] && Band(a, key, k) == Band(b, key, k)
    ensures Band(a[..|a| - 1], key, k) == Band(b[..|b| - 1], key, k)
  {
    var cut := if key(a[|a| - 1]) == k then [a[|a| - 1]] else [];
    var p, q := Band(a[..|a| - 1], key, k), Band(b[..|b| - 1], key, k);
    assert p + cut == q + cut;
    assert p == (p + cut)[..|p + cut| - |cut|] && q == (q + cut)[..|q + cut| - |cut|];
  }

  lemma LastBand<T>(s: seq<T>, key: T -> Key)
    requires s != []
    ensures var band := Band(s, key, key(s[|s| - 1])); band != [] && band[|band| - 1] == s[|s| - 1]
  {
  }

  lemma {:induction false} BandMember<T>(s: seq<T>, key: T -> Key, k: Key)
    ensures Band(s, key, k) != [] ==> exists x <- s :: key(x) == k
  {
    if s != [] && key(s[|s| - 1]) != k {
      BandMember(s[..|s| - 1], key, k);
    }
  }
}
