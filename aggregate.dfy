/** Row filters, sums and group-by aggregation: pandas `df[mask]`, `.sum()`,
    `groupby(keys).sum()` / `.size()`, and the JS `forEach` loops that accumulate
    `obj[key] = (obj[key] || 0) + x`. Everything is defined element by element from the
    end of the sequence, so a loop that processes rows in order matches it step by step. */
module Aggregate {
  import opened Wrappers
  import opened Sorting

  predicate Distinct<T(==)>(s: seq<T>) {
    forall i, j :: 0 <= i < j < |s| ==> s[i] != s[j]
  }

  /** The rows satisfying `p`, in their original order (`df[mask]`, `list.filter(p)`). */
  function Filter<T(==,!new)>(xs: seq<T>, p: T -> bool): (r: seq<T>)
    ensures |r| <= |xs|
    ensures forall x :: x in r <==> x in xs && p(x)
  {
    if xs == [] then []
    else
      var init := xs[..|xs| - 1];
      var last := xs[|xs| - 1];
      assert xs == init + [last];
      Filter(init, p) + (if p(last) then [last] else [])
  }

  /** The filter keeps every occurrence of a row that passes and none of one that fails. */
  lemma {:induction false} FilterMultiset<T(!new)>(xs: seq<T>, p: T -> bool)
    ensures forall x :: multiset(Filter(xs, p))[x] == if p(x) then multiset(xs)[x] else 0
  {
    if xs != [] {
      var init, last := xs[..|xs| - 1], xs[|xs| - 1];
      assert xs == init + [last];
      FilterMultiset(init, p);
    }
  }

  function Sum(xs: seq<real>): real {
    if xs == [] then 0.0 else Sum(xs[..|xs| - 1]) + xs[|xs| - 1]
  }

  lemma {:induction false} SumNonNegative(xs: seq<real>)
    requires forall i :: 0 <= i < |xs| ==> xs[i] >= 0.0
    ensures Sum(xs) >= 0.0
  {
    if xs != [] { SumNonNegative(xs[..|xs| - 1]); }
  }

  /** The sum of `vals[i]` over the positions whose key is `k`. */
  function SumFor<K(==)>(keys: seq<K>, vals: seq<real>, k: K): real
    requires |keys| == |vals|
  {
    if keys == [] then 0.0
    else
      SumFor(keys[..|keys| - 1], vals[..|vals| - 1], k)
      + (if keys[|keys| - 1] == k then vals[|vals| - 1] else 0.0)
  }

  /** `m[k] = (m[k] || 0) + v`: adds `v` to the entry of `k`, creating it at 0. */
  function AddTo<K>(m: map<K, real>, k: K, v: real): map<K, real> {
    m[k := (if k in m then m[k] else 0.0) + v]
  }

  /** `m[k] = (m[k] || 0) + 1`. */
  function Increment<K>(m: map<K, nat>, k: K): map<K, nat> {
    m[k := (if k in m then m[k] else 0) + 1]
  }

  /** `groupby(key).sum()`: one entry per key that occurs, holding the sum of its values. */
  function GroupSum<K(==,!new)>(keys: seq<K>, vals: seq<real>): (m: map<K, real>)
    requires |keys| == |vals|
    ensures forall k :: k in m <==> k in keys
    ensures forall k :: (if k in m then m[k] else 0.0) == SumFor(keys, vals, k)
  {
    if keys == [] then map[]
    else
      var m := GroupSum(keys[..|keys| - 1], vals[..|vals| - 1]);
      var k := keys[|keys| - 1];
      assert keys == keys[..|keys| - 1] + [k];
      AddTo(m, k, vals[|vals| - 1])
  }

  /** The number of positions whose key is `k`. */
  function CountFor<K(==)>(keys: seq<K>, k: K): nat {
    if keys == [] then 0
    else CountFor(keys[..|keys| - 1], k) + (if keys[|keys| - 1] == k then 1 else 0)
  }

  /** `groupby(key).size()`: one entry per key that occurs, holding how often it occurs. */
  function GroupCount<K(==,!new)>(keys: seq<K>): (m: map<K, nat>)
    ensures forall k :: k in m <==> k in keys
    ensures forall k :: (if k in m then m[k] else 0) == CountFor(keys, k)
  {
    if keys == [] then map[]
    else
      var m := GroupCount(keys[..|keys| - 1]);
      var k := keys[|keys| - 1];
      assert keys == keys[..|keys| - 1] + [k];
      Increment(m, k)
  }

  /** The sum, over the keys `ks`, of each key's group total. */
  function SumOver<K(==)>(keys: seq<K>, vals: seq<real>, ks: seq<K>): real
    requires |keys| == |vals|
  {
    if ks == [] then 0.0
    else SumOver(keys, vals, ks[..|ks| - 1]) + SumFor(keys, vals, ks[|ks| - 1])
  }

  lemma {:induction false} SumOverAppend<K>(keys: seq<K>, vals: seq<real>, k0: K, v: real, ks: seq<K>)
    requires |keys| == |vals| && Distinct(ks)
    ensures SumOver(keys + [k0], vals + [v], ks) == SumOver(keys, vals, ks) + (if k0 in ks then v else 0.0)
  {
    var keys', vals' := keys + [k0], vals + [v];
    assert keys'[..|keys'| - 1] == keys && vals'[..|vals'| - 1] == vals;
    if ks != [] {
      var init := ks[..|ks| - 1];
      assert ks == init + [ks[|ks| - 1]];
      SumOverAppend(keys, vals, k0, v, init);
    }
  }

  /** Summing every group's total over a duplicate-free list that covers all keys gives the
      sum of all values: grouping neither loses nor double-counts anything. */
  lemma {:induction false} SumOverCoveringKeys<K>(keys: seq<K>, vals: seq<real>, ks: seq<K>)
    requires |keys| == |vals| && Distinct(ks)
    requires forall i :: 0 <= i < |keys| ==> keys[i] in ks
    ensures SumOver(keys, vals, ks) == Sum(vals)
  {
    if keys == [] {
      assert forall j :: 0 <= j <= |ks| ==> SumOver(keys, vals, ks[..j]) == 0.0 by {
        forall j | 0 <= j <= |ks| ensures SumOver(keys, vals, ks[..j]) == 0.0 {
          SumOverEmpty(ks[..j]);
        }
      }
      assert ks[..|ks|] == ks;
    } else {
      var n := |keys| - 1;
      SumOverCoveringKeys(keys[..n], vals[..n], ks);
      SumOverAppend(keys[..n], vals[..n], keys[n], vals[n], ks);
      assert keys[..n] + [keys[n]] == keys && vals[..n] + [vals[n]] == vals;
    }
  }

  lemma {:induction false} SumOverEmpty<K>(ks: seq<K>)
    ensures SumOver([], [], ks) == 0.0
  {
    if ks != [] { SumOverEmpty(ks[..|ks| - 1]); }
  }

  function Firsts<A(==), B(==)>(pairs: seq<(A, B)>): (r: seq<A>)
    ensures |r| == |pairs| && forall i :: 0 <= i < |pairs| ==> r[i] == pairs[i].0
  {
    if pairs == [] then [] else Firsts(pairs[..|pairs| - 1]) + [pairs[|pairs| - 1].0]
  }

  function Seconds<A(==), B(==)>(pairs: seq<(A, B)>): (r: seq<B>)
    ensures |r| == |pairs| && forall i :: 0 <= i < |pairs| ==> r[i] == pairs[i].1
  {
    if pairs == [] then [] else Seconds(pairs[..|pairs| - 1]) + [pairs[|pairs| - 1].1]
  }

  /** The sum, over the second components `bs`, of the (a, b) group totals. */
  function SumOverSeconds<A(==), B(==)>(pairs: seq<(A, B)>, vals: seq<real>, a: A, bs: seq<B>): real
    requires |pairs| == |vals|
  {
    if bs == [] then 0.0
    else SumOverSeconds(pairs, vals, a, bs[..|bs| - 1]) + SumFor(pairs, vals, (a, bs[|bs| - 1]))
  }

  lemma {:induction false} SumOverSecondsAppend<A, B>(
    pairs: seq<(A, B)>, vals: seq<real>, p: (A, B), v: real, a: A, bs: seq<B>)
    requires |pairs| == |vals| && Distinct(bs)
    ensures SumOverSeconds(pairs + [p], vals + [v], a, bs)
         == SumOverSeconds(pairs, vals, a, bs) + (if p.0 == a && p.1 in bs then v else 0.0)
  {
    var pairs', vals' := pairs + [p], vals + [v];
    assert pairs'[..|pairs'| - 1] == pairs && vals'[..|vals'| - 1] == vals;
    if bs != [] {
      var init := bs[..|bs| - 1];
      assert bs == init + [bs[|bs| - 1]];
      SumOverSecondsAppend(pairs, vals, p, v, a, init);
    }
  }

  lemma {:induction false} SumOverSecondsEmpty<A, B>(a: A, bs: seq<B>)
    ensures SumOverSeconds([], [], a, bs) == 0.0
  {
    if bs != [] { SumOverSecondsEmpty(a, bs[..|bs| - 1]); }
  }

  /** Rolling a two-key group-by up to its first key: summing the (a, b) totals over every
      second key b gives the total grouped by a alone. */
  lemma {:induction false} RollUpSum<A, B>(pairs: seq<(A, B)>, vals: seq<real>, a: A, bs: seq<B>)
    requires |pairs| == |vals| && Distinct(bs)
    requires forall i :: 0 <= i < |pairs| ==> pairs[i].1 in bs
    ensures SumOverSeconds(pairs, vals, a, bs) == SumFor(Firsts(pairs), vals, a)
  {
    if pairs == [] {
      SumOverSecondsEmpty(a, bs);
    } else {
      var n := |pairs| - 1;
      var ps, vs := pairs[..n], vals[..n];
      assert forall i :: 0 <= i < n ==> ps[i] == pairs[i];
      RollUpSum(ps, vs, a, bs);
      SumOverSecondsAppend(ps, vs, pairs[n], vals[n], a, bs);
      assert ps + [pairs[n]] == pairs && vs + [vals[n]] == vals;
      var firsts := Firsts(pairs);
      assert firsts[..n] == Firsts(ps);
      assert SumFor(firsts, vals, a) == SumFor(firsts[..n], vs, a) + (if pairs[n].0 == a then vals[n] else 0.0);
    }
  }

  /** The sum, over the first components `as_`, of the (a, b) group counts. */
  function CountOverFirsts<A(==), B(==)>(pairs: seq<(A, B)>, as_: seq<A>, b: B): nat {
    if as_ == [] then 0
    else CountOverFirsts(pairs, as_[..|as_| - 1], b) + CountFor(pairs, (as_[|as_| - 1], b))
  }

  lemma {:induction false} CountOverFirstsAppend<A, B>(pairs: seq<(A, B)>, p: (A, B), as_: seq<A>, b: B)
    requires Distinct(as_)
    ensures CountOverFirsts(pairs + [p], as_, b)
         == CountOverFirsts(pairs, as_, b) + (if p.1 == b && p.0 in as_ then 1 else 0)
  {
    var pairs' := pairs + [p];
    assert pairs'[..|pairs'| - 1] == pairs;
    if as_ != [] {
      var init := as_[..|as_| - 1];
      assert as_ == init + [as_[|as_| - 1]];
      CountOverFirstsAppend(pairs, p, init, b);
    }
  }

  lemma {:induction false} CountOverFirstsEmpty<A, B>(as_: seq<A>, b: B)
    ensures CountOverFirsts([], as_, b) == 0
  {
    if as_ != [] { CountOverFirstsEmpty(as_[..|as_| - 1], b); }
  }

  /** Rolling a two-key count up to its second key: summing the (a, b) counts over every
      first key a gives the count grouped by b alone. */
  lemma {:induction false} RollUpCount<A, B>(pairs: seq<(A, B)>, as_: seq<A>, b: B)
    requires Distinct(as_)
    requires forall i :: 0 <= i < |pairs| ==> pairs[i].0 in as_
    ensures CountOverFirsts(pairs, as_, b) == CountFor(Seconds(pairs), b)
  {
    if pairs == [] {
      CountOverFirstsEmpty(as_, b);
    } else {
      var n := |pairs| - 1;
      RollUpCount(pairs[..n], as_, b);
      CountOverFirstsAppend(pairs[..n], pairs[n], as_, b);
      assert pairs[..n] + [pairs[n]] == pairs;
      assert Seconds(pairs)[..n] == Seconds(pairs[..n]);
    }
  }
  /** One more row extends a group-by sum by that row only. */
  lemma GroupSumSnoc<K(!new)>(keys: seq<K>, vals: seq<real>, k: K, v: real)
    requires |keys| == |vals|
    ensures GroupSum(keys + [k], vals + [v]) == AddTo(GroupSum(keys, vals), k, v)
  {
    assert (keys + [k])[..|keys|] == keys && (vals + [v])[..|vals|] == vals;
  }

  /** The group-by over one more position of the same columns. */
  lemma GroupSumPrefix<K(!new)>(keys: seq<K>, vals: seq<real>, i: nat)
    requires i < |keys| == |vals|
    ensures GroupSum(keys[..i + 1], vals[..i + 1]) == AddTo(GroupSum(keys[..i], vals[..i]), keys[i], vals[i])
  {
    assert keys[..i + 1] == keys[..i] + [keys[i]] && vals[..i + 1] == vals[..i] + [vals[i]];
    GroupSumSnoc(keys[..i], vals[..i], keys[i], vals[i]);
  }

  /** One more row extends a group-by count by that row only. */
  lemma GroupCountSnoc<K(!new)>(keys: seq<K>, k: K)
    ensures GroupCount(keys + [k]) == Increment(GroupCount(keys), k)
  {
    assert (keys + [k])[..|keys|] == keys;
  }

  lemma {:induction false} CountForAppend<K>(xs: seq<K>, ys: seq<K>, k: K)
    ensures CountFor(xs + ys, k) == CountFor(xs, k) + CountFor(ys, k)
    decreases |ys|
  {
    if ys == [] {
      assert xs + ys == xs;
    } else {
      var init := ys[..|ys| - 1];
      assert (xs + ys)[..|xs + ys| - 1] == xs + init;
      CountForAppend(xs, init, k);
    }
  }

  /** The values of `m` listed for the keys `ks`, in that order. */
  function GroupValues<K, V>(m: map<K, V>, ks: seq<K>): (r: seq<V>)
    requires forall i :: 0 <= i < |ks| ==> ks[i] in m
    ensures |r| == |ks| && forall i :: 0 <= i < |ks| ==> r[i] == m[ks[i]]
  {
    seq(|ks|, i requires 0 <= i < |ks| => m[ks[i]])
  }

  /** Adding up the group totals listed for `ks` is summing each key's rows. */
  lemma {:induction false} SumGroupValues<K(!new)>(keys: seq<K>, vals: seq<real>, ks: seq<K>)
    requires |keys| == |vals|
    requires forall i :: 0 <= i < |ks| ==> ks[i] in keys
    ensures forall i :: 0 <= i < |ks| ==> ks[i] in GroupSum(keys, vals)
    ensures Sum(GroupValues(GroupSum(keys, vals), ks)) == SumOver(keys, vals, ks)
  {
    var m := GroupSum(keys, vals);
    if ks != [] {
      var n := |ks| - 1;
      SumGroupValues(keys, vals, ks[..n]);
      assert GroupValues(m, ks)[..n] == GroupValues(m, ks[..n]);
    }
  }
  /** A filter that every row passes returns the rows unchanged. */
  lemma {:induction false} FilterKeepsAll<T(!new)>(xs: seq<T>, p: T -> bool)
    requires forall i :: 0 <= i < |xs| ==> p(xs[i])
    ensures Filter(xs, p) == xs
  {
    if xs != [] {
      var init, last := xs[..|xs| - 1], xs[|xs| - 1];
      assert xs == init + [last];
      FilterSnoc(init, last, p);
      FilterKeepsAll(init, p);
    }
  }

  lemma FilterSnoc<T(!new)>(xs: seq<T>, x: T, p: T -> bool)
    ensures Filter(xs + [x], p) == Filter(xs, p) + (if p(x) then [x] else [])
  {
    assert (xs + [x])[..|xs|] == xs;
  }

  lemma ConcatAssociative<T>(a: seq<T>, b: seq<T>, c: seq<T>)
    ensures (a + b) + c == a + (b + c)
  {
  }

  /** Filtering a concatenation filters each part. */
  lemma {:induction false} FilterAppend<T(!new)>(xs: seq<T>, ys: seq<T>, p: T -> bool)
    ensures Filter(xs + ys, p) == Filter(xs, p) + Filter(ys, p)
    decreases |ys|
  {
    if ys == [] {
      assert xs + ys == xs;
    } else {
      var init, last := ys[..|ys| - 1], ys[|ys| - 1];
      var tail := if p(last) then [last] else [];
      assert xs + ys == (xs + init) + [last] && ys == init + [last];
      FilterSnoc(xs + init, last, p);
      FilterSnoc(init, last, p);
      FilterAppend(xs, init, p);
      var a, b := Filter(xs, p), Filter(init, p);
      assert Filter(xs + ys, p) == (a + b) + tail;
      ConcatAssociative(a, b, tail);
    }
  }

  /** The present values, in order (`dropna()`). */
  function Somes<T(!new)>(xs: seq<Option<T>>): (r: seq<T>)
    ensures forall x :: x in r <==> Some(x) in xs
  {
    if xs == [] then []
    else
      var init := xs[..|xs| - 1];
      assert xs == init + [xs[|xs| - 1]];
      Somes(init) + (if xs[|xs| - 1].Some? then [xs[|xs| - 1].value] else [])
  }

  lemma SecondsAppend<A, B>(xs: seq<(A, B)>, ys: seq<(A, B)>)
    ensures Seconds(xs + ys) == Seconds(xs) + Seconds(ys)
  {
    assert forall i :: 0 <= i < |xs + ys| ==> Seconds(xs + ys)[i] == (Seconds(xs) + Seconds(ys))[i];
  }

  /** `pd.concat(frames)`: the rows of every frame, frame after frame. */
  function Concat<T>(frames: seq<seq<T>>): seq<T> {
    if frames == [] then [] else Concat(frames[..|frames| - 1]) + frames[|frames| - 1]
  }

  lemma ConcatSnoc<T>(frames: seq<seq<T>>, f: seq<T>)
    ensures Concat(frames + [f]) == Concat(frames) + f
  {
    assert (frames + [f])[..|frames|] == frames;
  }

  /** `.sum()` on a column with missing values: the missing ones are skipped. */
  function SumPresent(xs: seq<Option<real>>): real {
    Sum(Somes(xs))
  }

  lemma ConcatEmpty<T>(s: seq<T>)
    ensures s + [] == s
  {
  }

  lemma SplitAt<T>(s: seq<T>, k: nat)
    requires k < |s|
    ensures s == (s[..k] + [s[k]]) + s[k + 1..]
  {
  }

  lemma DistinctSnoc<T>(list: seq<T>, x: T)
    requires Distinct(list) && x !in list
    ensures Distinct(list + [x])
  {
  }

  lemma DistinctRemoveAt<T>(list: seq<T>, k: nat)
    requires Distinct(list) && k < |list|
    ensures Distinct(list[..k] + list[k + 1..])
  {
    var r := list[..k] + list[k + 1..];
    forall i, j | 0 <= i < j < |r| ensures r[i] != r[j] {
      var i', j' := if i < k then i else i + 1, if j < k then j else j + 1;
      assert r[i] == list[i'] && r[j] == list[j'];
    }
  }

  /** The index of the first occurrence of `c` (`list.index(c)`). */
  function Position<T(==)>(s: seq<T>, c: T): (r: nat)
    requires c in s
    ensures r < |s| && s[r] == c && c !in s[..r]
  {
    if s[0] == c then 0 else 1 + Position(s[1..], c)
  }

  lemma PositionOf<T>(s: seq<T>, k: nat)
    requires Distinct(s) && k < |s|
    ensures Position(s, s[k]) == k
  {
  }

  /** Filtering a duplicate-free sequence keeps the survivors in their relative order. */
  lemma {:induction false} FilterKeepsOrder<T(!new)>(xs: seq<T>, p: T -> bool)
    requires Distinct(xs)
    ensures forall i, j :: 0 <= i < j < |Filter(xs, p)| ==> Position(xs, Filter(xs, p)[i]) < Position(xs, Filter(xs, p)[j])
  {
    if xs != [] {
      var init, last := xs[..|xs| - 1], xs[|xs| - 1];
      assert xs == init + [last];
      assert Distinct(init);
      FilterKeepsOrder(init, p);
      FilterSnoc(init, last, p);
      var r0, r := Filter(init, p), Filter(xs, p);
      forall i, j | 0 <= i < j < |r| ensures Position(xs, r[i]) < Position(xs, r[j]) {
        assert r[i] == r0[i] && r[i] in init;
        var a := Position(init, r[i]);
        assert xs[a] == r[i];
        PositionOf(xs, a);
        if j < |r0| {
          assert r[j] == r0[j] && r[j] in init;
          var b := Position(init, r[j]);
          assert xs[b] == r[j];
          PositionOf(xs, b);
        } else {
          assert r[j] == last;
          PositionOf(xs, |xs| - 1);
        }
      }
    }
  }

  /** `list.reduce((sum, x) => sum + f(x), 0)`: the sum of `f` over the elements, in order. */
  function SumMap<T>(xs: seq<T>, f: T -> real): real {
    if xs == [] then 0.0 else SumMap(xs[..|xs| - 1], f) + f(xs[|xs| - 1])
  }

  lemma {:induction false} SumMapAppend<T>(xs: seq<T>, ys: seq<T>, f: T -> real)
    ensures SumMap(xs + ys, f) == SumMap(xs, f) + SumMap(ys, f)
    decreases |ys|
  {
    if ys == [] {
      assert xs + ys == xs;
    } else {
      var init := ys[..|ys| - 1];
      assert (xs + ys)[..|xs + ys| - 1] == xs + init;
      SumMapAppend(xs, init, f);
    }
  }

  /** Inserting an element into a sorted sequence adds its term to the sum. */
  lemma {:induction false} SumMapInsertBy<T(!new)>(s: seq<T>, x: T, key: T -> int, f: T -> real)
    requires SortedBy(s, key)
    ensures SumMap(InsertBy(s, x, key), f) == SumMap(s, f) + f(x)
    decreases |s|
  {
    if s == [] {
      assert InsertBy(s, x, key) == [] + [x];
    } else if key(x) < key(s[0]) {
      SumMapAppend([x], s, f);
      assert [x] == [] + [x];
    } else {
      var rest := s[1..];
      assert SortedBy(rest, key);
      SumMapInsertBy(rest, x, key, f);
      SumMapAppend([s[0]], InsertBy(rest, x, key), f);
      SumMapAppend([s[0]], rest, f);
      assert [s[0]] + rest == s;
      assert [s[0]] == [] + [s[0]];
    }
  }

  /** Sorting changes no sum. */
  lemma {:induction false} SumMapSortBy<T(!new)>(xs: seq<T>, key: T -> int, f: T -> real)
    ensures SumMap(SortBy(xs, key), f) == SumMap(xs, f)
  {
    if xs != [] {
      var init := xs[..|xs| - 1];
      SumMapSortBy(init, key, f);
      SumMapInsertBy(SortBy(init, key), xs[|xs| - 1], key, f);
    }
  }

  /** Skipping missing values and counting them as 0 give the same sum: `.sum()` over a
      column and a `reduce` adding `x || 0` agree. */
  lemma {:induction false} SumPresentAsSumMap<T>(xs: seq<Option<real>>, rows: seq<T>, f: T -> real)
    requires |xs| == |rows|
    requires forall i :: 0 <= i < |rows| ==> f(rows[i]) == xs[i].GetOr(0.0)
    ensures SumPresent(xs) == SumMap(rows, f)
  {
    if rows != [] {
      var n := |rows| - 1;
      SumPresentAsSumMap(xs[..n], rows[..n], f);
      assert xs[..n] == xs[..|xs| - 1];
      var init := Somes(xs[..n]);
      if xs[n].Some? {
        assert (init + [xs[n].value])[..|init|] == init;
      } else {
        assert init + [] == init;
      }
    }
  }
}

