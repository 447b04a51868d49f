/** Sorting with duplicates removed, and "the last n" of a sorted sequence: the shapes of
    `sorted(set(...))[-n:]`, `Object.keys(o).sort()` and `.sort(...).slice(-n)`. */
module Sorting {

  ghost predicate IsStrictTotalOrder<T(!new)>(lt: (T, T) -> bool) {
    && (forall x :: !lt(x, x))
    && (forall x, y, z :: lt(x, y) && lt(y, z) ==> lt(x, z))
    && (forall x, y :: x != y ==> lt(x, y) || lt(y, x))
  }

  ghost predicate StrictlySorted<T>(s: seq<T>, lt: (T, T) -> bool) {
    forall i, j :: 0 <= i < j < |s| ==> lt(s[i], s[j])
  }

  /** Inserts `x` into a strictly sorted sequence, unless it is already there. */
  function Insert<T(==,!new)>(s: seq<T>, x: T, lt: (T, T) -> bool): (r: seq<T>)
    requires IsStrictTotalOrder(lt) && StrictlySorted(s, lt)
    ensures StrictlySorted(r, lt)
    ensures forall y :: y in r <==> y in s || y == x
    decreases |s|
  {
    if s == [] then [x]
    else if x == s[0] then s
    else if lt(x, s[0]) then
      assert forall i :: 0 <= i < |s| ==> lt(x, s[i]);
      [x] + s
    else
      var rest := Insert(s[1..], x, lt);
      assert lt(s[0], x);
      assert forall y :: y in rest ==> lt(s[0], y);
      [s[0]] + rest
  }

  /** The distinct elements of `xs` in ascending order. */
  function SortUnique<T(==,!new)>(xs: seq<T>, lt: (T, T) -> bool): (r: seq<T>)
    requires IsStrictTotalOrder(lt)
    ensures StrictlySorted(r, lt)
    ensures forall y :: y in r <==> y in xs
    ensures forall i, j :: 0 <= i < j < |r| ==> r[i] != r[j]
  {
    if xs == [] then []
    else Insert(SortUnique(xs[..|xs| - 1], lt), xs[|xs| - 1], lt)
  }

  /** The last `n` elements (`s[-n:]`, `.slice(-n)`). */
  function TakeLast<T>(s: seq<T>, n: nat): (r: seq<T>)
    ensures |r| == if |s| <= n then |s| else n
    ensures forall i :: 0 <= i < |r| ==> r[i] == s[|s| - |r| + i]
  {
    if |s| <= n then s else s[|s| - n..]
  }

  /** The last `n` of a sorted sequence are sorted, and everything left out comes before
      all of them. */
  lemma {:induction false} TakeLastOfSorted<T(!new)>(s: seq<T>, n: nat, lt: (T, T) -> bool)
    requires IsStrictTotalOrder(lt) && StrictlySorted(s, lt)
    ensures StrictlySorted(TakeLast(s, n), lt)
    ensures forall y :: y in TakeLast(s, n) ==> y in s
    ensures forall y :: y in s && y !in TakeLast(s, n) ==>
              |TakeLast(s, n)| == n && forall z :: z in TakeLast(s, n) ==> lt(y, z)
  {
    var r := TakeLast(s, n);
    forall y | y in s && y !in r
      ensures |r| == n && forall z :: z in r ==> lt(y, z)
    {
      var i :| 0 <= i < |s| && s[i] == y;
      assert |s| > n;
      assert forall k :: |s| - n <= k < |s| ==> s[k] == r[k - (|s| - n)];
      forall z | z in r ensures lt(y, z) {
        var j :| 0 <= j < |r| && r[j] == z;
        assert z == s[|s| - n + j];
      }
    }
  }

  predicate IntLess(a: int, b: int) {
    a < b
  }

  lemma IntLessIsStrictTotal()
    ensures IsStrictTotalOrder(IntLess)
  {
  }

  /** Ascending by an integer sort key, equal keys in any order. */
  ghost predicate SortedBy<T>(s: seq<T>, key: T -> int) {
    forall i, j :: 0 <= i < j < |s| ==> key(s[i]) <= key(s[j])
  }

  /** Inserts `x` after every element whose key is not greater than its own. */
  function InsertBy<T(!new)>(s: seq<T>, x: T, key: T -> int): (r: seq<T>)
    requires SortedBy(s, key)
    ensures SortedBy(r, key)
    ensures multiset(r) == multiset(s) + multiset{x}
    ensures forall y :: y in r <==> y in s || y == x
    decreases |s|
  {
    if s == [] then [x]
    else if key(x) < key(s[0]) then [x] + s
    else
      var rest := InsertBy(s[1..], x, key);
      InsertByStep(s, x, key, rest);
      [s[0]] + rest
  }

  /** The head of `s` goes before the insertion into the rest of `s`. */
  lemma InsertByStep<T>(s: seq<T>, x: T, key: T -> int, rest: seq<T>)
    requires SortedBy(s, key) && s != [] && key(s[0]) <= key(x)
    requires SortedBy(rest, key)
    requires multiset(rest) == multiset(s[1..]) + multiset{x}
    requires forall y :: y in rest <==> y in s[1..] || y == x
    ensures SortedBy([s[0]] + rest, key)
    ensures multiset([s[0]] + rest) == multiset(s) + multiset{x}
    ensures forall y :: y in [s[0]] + rest <==> y in s || y == x
  {
    assert s == [s[0]] + s[1..];
    assert forall y :: y in rest ==> key(s[0]) <= key(y);
  }

  /** `sort_values(key)`: the same rows, ascending by the key. */
  function SortBy<T(!new)>(xs: seq<T>, key: T -> int): (r: seq<T>)
    ensures SortedBy(r, key)
    ensures multiset(r) == multiset(xs)
  {
    if xs == [] then []
    else
      assert xs == xs[..|xs| - 1] + [xs[|xs| - 1]];
      InsertBy(SortBy(xs[..|xs| - 1], key), xs[|xs| - 1], key)
  }

  lemma SortByMembers<T(!new)>(xs: seq<T>, key: T -> int)
    ensures forall x :: x in SortBy(xs, key) <==> x in xs
  {
    var r := SortBy(xs, key);
    assert forall x :: x in r <==> x in multiset(r);
    assert forall x :: x in xs <==> x in multiset(xs);
  }
}

