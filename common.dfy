/** Shared value types and list helpers used by every other module. */
module Common {

  datatype Option<T> = None | Some(value: T) {
    function GetOr(default: T): T {
      if Some? then value else default
    }
  }

  /** An error as the source raises it: a FastAPI HTTPException (status code and detail). */
  datatype HttpError = HttpError(status: int, detail: string)

  datatype Result<T> = Ok(value: T) | Err(error: HttpError)

  /** JavaScript / Python truthiness of an optional id: absent and 0 are falsy. */
  predicate TruthyId(x: Option<int>) {
    x.Some? && x.value != 0
  }

  /** Truthiness of an optional string: absent and "" are falsy. */
  predicate TruthyStr(x: Option<string>) {
    x.Some? && x.value != ""
  }

  /** The elements of `s` that satisfy `p`, in order (JavaScript `filter`, a Python list comprehension). */
  function Filter<T>(s: seq<T>, p: T -> bool): (r: seq<T>)
    ensures |r| <= |s|
    ensures forall x :: x in r ==> x in s && p(x)
    ensures forall x :: x in s && p(x) ==> x in r
  {
    if s == [] then [] else (if p(s[0]) then [s[0]] else []) + Filter(s[1..], p)
  }

  /** Filtering depends only on which elements the predicate accepts. */
  lemma {:induction false} FilterSamePredicate<T>(s: seq<T>, p: T -> bool, q: T -> bool)
    requires forall x :: x in s ==> p(x) == q(x)
    ensures Filter(s, p) == Filter(s, q)
  {
    if s != [] {
      assert forall x :: x in s[1..] ==> x in s;
      FilterSamePredicate(s[1..], p, q);
    }
  }

  /** A predicate every element satisfies filters nothing out. */
  lemma {:induction false} FilterAll<T>(s: seq<T>, p: T -> bool)
    requires forall x :: x in s ==> p(x)
    ensures Filter(s, p) == s
  {
    if s != [] {
      assert forall x :: x in s[1..] ==> x in s;
      FilterAll(s[1..], p);
    }
  }

  /** `f` applied to every element of `s`, in order (JavaScript `map`, a Python list comprehension). */
  function Map<T, U>(s: seq<T>, f: T -> U): (r: seq<U>)
    ensures |r| == |s|
    ensures forall i :: 0 <= i < |s| ==> r[i] == f(s[i])
  {
    seq(|s|, i requires 0 <= i < |s| => f(s[i]))
  }

  /** `s.filter(p).length`. */
  function Count<T>(s: seq<T>, p: T -> bool): nat {
    |Filter(s, p)|
  }

  lemma {:induction false} FilterAppend<T>(a: seq<T>, b: seq<T>, p: T -> bool)
    ensures Filter(a + b, p) == Filter(a, p) + Filter(b, p)
  {
    if a == [] {
      assert a + b == b;
    } else {
      assert (a + b)[1..] == a[1..] + b;
      FilterAppend(a[1..], b, p);
    }
  }

  /** A filter and its complement split the list: |filter(p)| + |filter(not p)| == |s|. */
  lemma {:induction false} CountComplement<T>(s: seq<T>, p: T -> bool, q: T -> bool)
    requires forall x :: q(x) == !p(x)
    ensures Count(s, p) + Count(s, q) == |s|
  {
    if s != [] {
      CountComplement(s[1..], p, q);
    }
  }

  /** Counting with a stronger predicate never yields more. */
  lemma {:induction false} CountMonotone<T>(s: seq<T>, p: T -> bool, q: T -> bool)
    requires forall x :: p(x) ==> q(x)
    ensures Count(s, p) <= Count(s, q)
  {
    if s != [] {
      CountMonotone(s[1..], p, q);
    }
  }

  /** Counting with a disjunction of two exclusive predicates adds their counts. */
  lemma {:induction false} CountDisjointOr<T>(s: seq<T>, p: T -> bool, q: T -> bool, r: T -> bool)
    requires forall x :: r(x) == (p(x) || q(x)) && !(p(x) && q(x))
    ensures Count(s, r) == Count(s, p) + Count(s, q)
  {
    if s != [] {
      CountDisjointOr(s[1..], p, q, r);
    }
  }

  /** Three mutually exclusive, exhaustive predicates partition the list. */
  lemma {:induction false} CountThreeWay<T>(s: seq<T>, p: T -> bool, q: T -> bool, r: T -> bool)
    requires forall x :: (p(x) || q(x) || r(x)) && !(p(x) && q(x)) && !(p(x) && r(x)) && !(q(x) && r(x))
    ensures Count(s, p) + Count(s, q) + Count(s, r) == |s|
  {
    if s != [] {
      CountThreeWay(s[1..], p, q, r);
    }
  }

  /** The first element satisfying `p` (`.eq(...).execute().data[0]`, `Array.find`). */
  function FindFirst<T>(s: seq<T>, p: T -> bool): (r: Option<T>)
    ensures r.Some? ==> r.value in s && p(r.value)
    ensures r.None? ==> forall x :: x in s ==> !p(x)
    ensures r.Some? ==> exists i :: 0 <= i < |s| && s[i] == r.value && forall j :: 0 <= j < i ==> !p(s[j])
  {
    if s == [] then None
    else if p(s[0]) then (assert s[0] == s[0]; Some(s[0]))
    else
      var rest := FindFirst(s[1..], p);
      if rest.Some? then
        ghost var i :| 0 <= i < |s[1..]| && s[1..][i] == rest.value && forall j :: 0 <= j < i ==> !p(s[1..][j]);
        assert s[i + 1] == rest.value && forall j :: 0 <= j < i + 1 ==> !p(s[j]);
        rest
      else rest
  }

  /** Does any element satisfy `p`?  (`if existing.data:` after a filtered query.) */
  predicate Any<T>(s: seq<T>, p: T -> bool) {
    exists i :: 0 <= i < |s| && p(s[i])
  }

  /** The distinct elements of `s` in first-occurrence order (insertion order of a JavaScript
      Map or Set, or of a Python dict), defined the way a left-to-right loop builds it. */
  function Dedup<T(==)>(s: seq<T>): (r: seq<T>)
    ensures forall x :: x in r ==> x in s
    ensures forall x :: x in s ==> x in r
    ensures forall i, j :: 0 <= i < j < |r| ==> r[i] != r[j]
  {
    if s == [] then []
    else
      var d := Dedup(s[..|s| - 1]);
      if s[|s| - 1] in d then d else d + [s[|s| - 1]]
  }

  /** Elements are pairwise distinct. */
  predicate NoDuplicates<T(==)>(s: seq<T>) {
    forall i, j :: 0 <= i < j < |s| ==> s[i] != s[j]
  }

  function Min(a: int, b: int): int {
    if a <= b then a else b
  }

  /** `[x for x in xs if x]` over nullable ids: the present, non-zero ones. */
  function TruthyIds(xs: seq<Option<int>>): (r: seq<int>)
    ensures |r| <= |xs|
    ensures forall i :: i in r <==> Some(i) in xs && i != 0
    decreases |xs|
  {
    if xs == [] then []
    else
      var n := |xs| - 1;
      assert xs == xs[..n] + [xs[n]];
      TruthyIds(xs[..n]) + (if TruthyId(xs[n]) then [xs[n].value] else [])
  }

  /** A duplicate-free list has as many elements as the set of its elements. */
  lemma {:induction false} DedupCardinality<T>(s: seq<T>)
    decreases |s|
    ensures |Dedup(s)| == |set x | x in s| <= |s|
  {
    if s != [] {
      var n := |s| - 1;
      var prefix := s[..n];
      DedupCardinality(prefix);
      assert s == prefix + [s[n]];
      var sp := set x | x in prefix;
      assert (set x | x in s) == sp + {s[n]};
      if s[n] in Dedup(prefix) {
        assert s[n] in sp;
        assert sp + {s[n]} == sp;
      } else {
        assert s[n] !in sp;
      }
    }
  }

  /** The number of times `x` occurs in `s`. */
  function Occurrences<T(==)>(s: seq<T>, x: T): nat
    decreases |s|
  {
    if s == [] then 0 else Occurrences(s[..|s| - 1], x) + (if s[|s| - 1] == x then 1 else 0)
  }
}
