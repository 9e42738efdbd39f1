/** Stable descending sort by a two-part key: Python `sorted(..., key=..., reverse=True)`,
    JavaScript `Array.prototype.sort` with a descending comparator, and the database's
    `order(..., desc=True)`. An ascending order is a descending one on the negated key. */
module Sorting {
  import opened Common

  /** A lexicographic key: compared by `major` first, then by `minor`. */
  datatype Key = Key(major: int, minor: int)

  predicate KeyLe(a: Key, b: Key) {
    a.major < b.major || (a.major == b.major && a.minor <= b.minor)
  }

  /** Every element's key is at least that of every element after it. */
  predicate SortedDesc<T>(s: seq<T>, key: T -> Key) {
    forall i, j :: 0 <= i < j < |s| ==> KeyLe(key(s[j]), key(s[i]))
  }

  /** Puts `x` in front of the first element whose key is not greater than its own. */
  function Insert<T>(x: T, s: seq<T>, key: T -> Key): (r: seq<T>)
    requires SortedDesc(s, key)
    ensures SortedDesc(r, key)
    ensures multiset(r) == multiset(s) + multiset{x}
    ensures |r| == |s| + 1
  {
    if s == [] then [x]
    else if KeyLe(key(s[0]), key(x)) then [x] + s
    else
      var rest := Insert(x, s[1..], key);
      assert [s[0]] + s[1..] == s;
      assert KeyLe(key(x), key(s[0]));
      assert forall i :: 0 <= i < |rest| ==> KeyLe(key(rest[i]), key(s[0])) by {
        forall i | 0 <= i < |rest|
          ensures KeyLe(key(rest[i]), key(s[0]))
        {
          assert rest[i] in multiset(rest);
          if rest[i] != x {
            assert rest[i] in multiset(s[1..]);
            var j :| 0 <= j < |s[1..]| && s[1..][j] == rest[i];
            assert s[j + 1] == rest[i];
          }
        }
      }
      [s[0]] + rest
  }

  /** Insertion sort: the first element goes in front of every later element with the same key,
      so equal keys keep their original order. */
  function SortDesc<T>(s: seq<T>, key: T -> Key): (r: seq<T>)
    ensures SortedDesc(r, key)
    ensures multiset(r) == multiset(s)
    ensures |r| == |s|
  {
    if s == [] then []
    else
      assert [s[0]] + s[1..] == s;
      Insert(s[0], SortDesc(s[1..], key), key)
  }

  /** The elements whose key equals `k`, in order. */
  function WithKey<T>(s: seq<T>, key: T -> Key, k: Key): seq<T> {
    if s == [] then [] else (if key(s[0]) == k then [s[0]] else []) + WithKey(s[1..], key, k)
  }

  lemma {:induction false} InsertWithKey<T>(x: T, s: seq<T>, key: T -> Key, k: Key)
    requires SortedDesc(s, key)
    ensures WithKey(Insert(x, s, key), key, k) == (if key(x) == k then [x] else []) + WithKey(s, key, k)
  {
    if s == [] {
    } else if KeyLe(key(s[0]), key(x)) {
      assert ([x] + s)[1..] == s;
    } else {
      var rest := Insert(x, s[1..], key);
      InsertWithKey(x, s[1..], key, k);
      assert key(s[0]) != key(x);
      var hs: seq<T> := if key(s[0]) == k then [s[0]] else [];
      var hx: seq<T> := if key(x) == k then [x] else [];
      assert hs == [] || hx == [];
      assert ([s[0]] + rest)[1..] == rest;
      calc {
        WithKey(Insert(x, s, key), key, k);
        WithKey([s[0]] + rest, key, k);
        hs + WithKey(rest, key, k);
        hs + (hx + WithKey(s[1..], key, k));
        hx + (hs + WithKey(s[1..], key, k));
        hx + WithKey(s, key, k);
      }
    }
  }

  /** Stability: among elements with equal keys the sort keeps the input order. */
  lemma {:induction false} SortDescStable<T>(s: seq<T>, key: T -> Key, k: Key)
    ensures WithKey(SortDesc(s, key), key, k) == WithKey(s, key, k)
  {
    if s != [] {
      SortDescStable(s[1..], key, k);
      InsertWithKey(s[0], SortDesc(s[1..], key), key, k);
    }
  }

  /** The first `n` elements (`[:n]`, `.slice(0, n)`, `.limit(n)`). */
  function Take<T>(s: seq<T>, n: nat): (r: seq<T>)
    ensures |r| == Min(n, |s|)
    ensures forall i :: 0 <= i < |r| ==> r[i] == s[i]
  {
    if n <= |s| then s[..n] else s
  }

  /** The first `n` elements of a descending list: still descending, taken from the list, and
      none of the elements left out has a greater key than one that was kept. */
  lemma TakeOfSorted<T>(s: seq<T>, key: T -> Key, n: nat)
    requires SortedDesc(s, key)
    ensures SortedDesc(Take(s, n), key)
    ensures multiset(Take(s, n)) <= multiset(s)
    ensures forall v, w :: v in multiset(s) - multiset(Take(s, n)) && w in Take(s, n) ==> KeyLe(key(v), key(w))
  {
    var r := Take(s, n);
    var rest := s[|r|..];
    assert s == r + rest;
    assert multiset(s) == multiset(r) + multiset(rest);
    assert SortedDesc(r, key) by {
      forall i, j | 0 <= i < j < |r|
        ensures KeyLe(key(r[j]), key(r[i]))
      {
        assert r[i] == s[i] && r[j] == s[j];
      }
    }
    forall v, w | v in multiset(s) - multiset(r) && w in r
      ensures KeyLe(key(v), key(w))
    {
      assert v in multiset(rest);
      var a :| 0 <= a < |rest| && rest[a] == v;
      var b :| 0 <= b < |r| && r[b] == w;
      assert s[|r| + a] == v && s[b] == w;
    }
  }

  /** Sorting the elements a filter keeps: exactly those elements, in descending order. */
  lemma SortFilterFacts<T>(s: seq<T>, p: T -> bool, key: T -> Key)
    ensures var r := SortDesc(Filter(s, p), key);
      SortedDesc(r, key) && multiset(r) == multiset(Filter(s, p)) &&
      forall x :: x in r <==> x in s && p(x)
  {
    var kept := Filter(s, p);
    var r := SortDesc(kept, key);
    forall x
      ensures x in r <==> x in s && p(x)
    {
      assert x in r <==> x in multiset(r);
      assert x in kept <==> x in multiset(kept);
    }
  }

  /** The head of a descending list has the greatest key. */
  lemma SortedHeadIsMax<T>(s: seq<T>, key: T -> Key)
    requires |s| > 0 && SortedDesc(s, key)
    ensures forall x :: x in s ==> KeyLe(key(x), key(s[0]))
  {
    forall x | x in s
      ensures KeyLe(key(x), key(s[0]))
    {
      var i :| 0 <= i < |s| && s[i] == x;
      if i > 0 {
        assert KeyLe(key(s[i]), key(s[0]));
      }
    }
  }
}
