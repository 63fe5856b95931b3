/** The list transforms the application applies to its state: `Array.prototype.filter`,
    update-by-id via `map`, deduplication that keeps first occurrences, and sums and
    rounded means of integer lists. */
module Lists {
  import opened Numbers

  /** `s.filter(keep)`. */
  function Filter<T(!new)>(s: seq<T>, keep: T -> bool): (r: seq<T>)
    ensures |r| <= |s|
    ensures forall x :: x in r <==> x in s && keep(x)
  {
    if s == [] then [] else (if keep(s[0]) then [s[0]] else []) + Filter(s[1..], keep)
  }

  /** `r` is obtained from `s` by deleting elements, keeping the order of the rest. */
  predicate IsSubsequence<T(==)>(r: seq<T>, s: seq<T>)
    decreases |s|
  {
    r == [] || (s != [] && ((r[0] == s[0] && IsSubsequence(r[1..], s[1..])) || IsSubsequence(r, s[1..])))
  }

  lemma {:induction false} SubsequenceOfSelf<T>(s: seq<T>)
    ensures IsSubsequence(s, s)
    decreases |s|
  {
    if s != [] {
      SubsequenceOfSelf(s[1..]);
    }
  }

  /** A subsequence is never longer than the sequence it is taken from. */
  lemma {:induction false} SubsequenceNoLonger<T>(r: seq<T>, s: seq<T>)
    requires IsSubsequence(r, s)
    ensures |r| <= |s|
    decreases |s|
  {
    if r != [] {
      if r[0] == s[0] && IsSubsequence(r[1..], s[1..]) {
        SubsequenceNoLonger(r[1..], s[1..]);
      } else {
        SubsequenceNoLonger(r, s[1..]);
      }
    }
  }

  /** Filtering keeps the surviving elements in their original order. */
  lemma {:induction false} FilterIsSubsequence<T(!new)>(s: seq<T>, keep: T -> bool)
    ensures IsSubsequence(Filter(s, keep), s)
    decreases |s|
  {
    if s != [] {
      FilterIsSubsequence(s[1..], keep);
      var r := Filter(s, keep);
      if keep(s[0]) {
        assert r[0] == s[0] && r[1..] == Filter(s[1..], keep);
        assert IsSubsequence(r[1..], s[1..]);
      } else {
        assert r == Filter(s[1..], keep);
      }
    }
  }

  /** Filtering keeps every copy of a kept element and no copy of the others. */
  lemma {:induction false} FilterCounts<T(!new)>(s: seq<T>, keep: T -> bool)
    ensures forall x :: multiset(Filter(s, keep))[x] == if keep(x) then multiset(s)[x] else 0
    decreases |s|
  {
    if s != [] {
      FilterCounts(s[1..], keep);
      assert s == [s[0]] + s[1..];
      assert multiset(s) == multiset([s[0]]) + multiset(s[1..]);
      var head := if keep(s[0]) then [s[0]] else [];
      assert Filter(s, keep) == head + Filter(s[1..], keep);
      assert multiset(Filter(s, keep)) == multiset(head) + multiset(Filter(s[1..], keep));
    }
  }

  /** Filtering distributes over concatenation. */
  lemma {:induction false} FilterAppend<T(!new)>(a: seq<T>, b: seq<T>, keep: T -> bool)
    ensures Filter(a + b, keep) == Filter(a, keep) + Filter(b, keep)
    decreases |a|
  {
    if a != [] {
      assert (a + b)[1..] == a[1..] + b;
      FilterAppend(a[1..], b, keep);
    } else {
      assert a + b == b;
    }
  }

  /** A filter that keeps every element changes nothing. */
  lemma {:induction false} FilterKeepsAll<T(!new)>(s: seq<T>, keep: T -> bool)
    requires forall i :: 0 <= i < |s| ==> keep(s[i])
    ensures Filter(s, keep) == s
    decreases |s|
  {
    if s != [] {
      FilterKeepsAll(s[1..], keep);
    }
  }

  /** Filtering twice with the same test is filtering once. */
  lemma FilterIdempotent<T(!new)>(s: seq<T>, keep: T -> bool)
    ensures Filter(Filter(s, keep), keep) == Filter(s, keep)
  {
    var r := Filter(s, keep);
    assert forall i :: 0 <= i < |r| ==> r[i] in r;
    FilterKeepsAll(r, keep);
  }

  /** `s.map(x => hit(x) ? f(x) : x)`. */
  function UpdateWhere<T>(s: seq<T>, hit: T -> bool, f: T -> T): (r: seq<T>)
    ensures |r| == |s|
  {
    seq(|s|, i requires 0 <= i < |s| => if hit(s[i]) then f(s[i]) else s[i])
  }

  /** When nothing matches, an update leaves the list as it was. */
  lemma UpdateWhereNoHit<T>(s: seq<T>, hit: T -> bool, f: T -> T)
    requires forall i :: 0 <= i < |s| ==> !hit(s[i])
    ensures UpdateWhere(s, hit, f) == s
  {
  }

  /** The set of keys of the elements of `s`. */
  ghost function KeysOf<T(!new), K>(s: seq<T>, key: T -> K): set<K>
  {
    set i | 0 <= i < |s| :: key(s[i])
  }

  /** The keys of a non-empty list: its head's key and the keys of its tail. */
  lemma KeysOfCons<T(!new), K>(s: seq<T>, key: T -> K)
    requires s != []
    ensures KeysOf(s, key) == {key(s[0])} + KeysOf(s[1..], key)
  {
    var tail := s[1..];
    forall k | k in KeysOf(s, key) ensures k in {key(s[0])} + KeysOf(tail, key) {
      var i :| 0 <= i < |s| && key(s[i]) == k;
      if i > 0 { assert key(tail[i - 1]) == k; }
    }
    forall k | k in KeysOf(tail, key) ensures k in KeysOf(s, key) {
      var i :| 0 <= i < |tail| && key(tail[i]) == k;
      assert key(s[i + 1]) == k;
    }
    assert key(s[0]) in KeysOf(s, key);
  }

  /** Walks `s` left to right with a `seen` set, keeping an element only when its
      key has not been seen and then recording that key. */
  function DedupBy<T(!new), K(==)>(s: seq<T>, key: T -> K, seen: set<K>): (r: seq<T>)
    ensures |r| <= |s|
    ensures forall x :: x in r ==> x in s && key(x) !in seen
    decreases |s|
  {
    if s == [] then []
    else if key(s[0]) in seen then DedupBy(s[1..], key, seen)
    else [s[0]] + DedupBy(s[1..], key, seen + {key(s[0])})
  }

  /** A non-empty list with nothing seen yet keeps at least its first element. */
  lemma DedupByNonEmpty<T(!new), K>(s: seq<T>, key: T -> K)
    requires s != []
    ensures DedupBy(s, key, {}) != [] && DedupBy(s, key, {})[0] == s[0]
  {
  }

  /** No two kept elements share a key. */
  lemma {:induction false} DedupByDistinct<T(!new), K>(s: seq<T>, key: T -> K, seen: set<K>)
    ensures forall i, j :: 0 <= i < j < |DedupBy(s, key, seen)| ==>
      key(DedupBy(s, key, seen)[i]) != key(DedupBy(s, key, seen)[j])
    decreases |s|
  {
    if s != [] {
      if key(s[0]) in seen {
        DedupByDistinct(s[1..], key, seen);
      } else {
        DedupByDistinct(s[1..], key, seen + {key(s[0])});
      }
    }
  }

  /** Exactly the keys not seen beforehand survive. */
  lemma {:induction false} DedupByKeys<T(!new), K>(s: seq<T>, key: T -> K, seen: set<K>)
    ensures KeysOf(DedupBy(s, key, seen), key) == KeysOf(s, key) - seen
    decreases |s|
  {
    var r := DedupBy(s, key, seen);
    if s == [] {
      assert KeysOf(r, key) == {};
      assert KeysOf(s, key) == {};
    } else {
      var tail := s[1..];
      KeysOfCons(s, key);
      if key(s[0]) in seen {
        DedupByKeys(tail, key, seen);
      } else {
        var rest := DedupBy(tail, key, seen + {key(s[0])});
        DedupByKeys(tail, key, seen + {key(s[0])});
        assert r == [s[0]] + rest;
        assert r[0] == s[0] && r[1..] == rest;
        KeysOfCons(r, key);
      }
    }
  }

  /** Deduplication keeps the surviving elements in their original order. */
  lemma {:induction false} DedupByIsSubsequence<T(!new), K>(s: seq<T>, key: T -> K, seen: set<K>)
    ensures IsSubsequence(DedupBy(s, key, seen), s)
    decreases |s|
  {
    if s != [] {
      var r := DedupBy(s, key, seen);
      if key(s[0]) in seen {
        DedupByIsSubsequence(s[1..], key, seen);
      } else {
        DedupByIsSubsequence(s[1..], key, seen + {key(s[0])});
        assert r[0] == s[0] && r[1..] == DedupBy(s[1..], key, seen + {key(s[0])});
      }
    }
  }

  /** Index of the first element of `s` whose key is `k` (|s| when there is none):
      JavaScript's `indexOf` when the key is the element itself. */
  function FirstIndexOfKey<T(!new), K(==)>(s: seq<T>, key: T -> K, k: K): (i: nat)
    ensures i <= |s|
    ensures i < |s| ==> key(s[i]) == k
    ensures forall j :: 0 <= j < i ==> key(s[j]) != k
    decreases |s|
  {
    if s == [] then 0 else if key(s[0]) == k then 0 else 1 + FirstIndexOfKey(s[1..], key, k)
  }

  /** The elements `s[i]`, `i >= from`, whose key first occurs at `i`:
      `s.filter((v, i, a) => a.indexOf(v) === i)` when the key is the element itself. */
  function FirstOccurrencesFrom<T(!new), K(==)>(s: seq<T>, key: T -> K, from: nat): seq<T>
    requires from <= |s|
    decreases |s| - from
  {
    if from == |s| then []
    else if FirstIndexOfKey(s, key, key(s[from])) == from
    then [s[from]] + FirstOccurrencesFrom(s, key, from + 1)
    else FirstOccurrencesFrom(s, key, from + 1)
  }

  /** Whether `k` is the key of one of the first `n` elements of `s`. */
  lemma {:induction false} SeenBeforeIffEarlierIndex<T(!new), K>(s: seq<T>, key: T -> K, n: nat)
    requires n < |s|
    ensures key(s[n]) in KeysOf(s[..n], key) <==> FirstIndexOfKey(s, key, key(s[n])) < n
  {
    var f := FirstIndexOfKey(s, key, key(s[n]));
    if key(s[n]) in KeysOf(s[..n], key) {
      var i :| 0 <= i < n && key(s[..n][i]) == key(s[n]);
      assert key(s[i]) == key(s[n]);
    }
    if f < n {
      assert key(s[..n][f]) == key(s[n]);
    }
  }

  /** The seen-set walk keeps exactly the first occurrences. */
  lemma {:induction false} DedupByFirstOccurrencesFrom<T(!new), K>(s: seq<T>, key: T -> K, from: nat)
    requires from <= |s|
    ensures DedupBy(s[from..], key, KeysOf(s[..from], key)) == FirstOccurrencesFrom(s, key, from)
    decreases |s| - from
  {
    if from < |s| {
      var seen := KeysOf(s[..from], key);
      var seen' := KeysOf(s[..from + 1], key);
      assert seen' == seen + {key(s[from])} by {
        forall k | k in seen' ensures k in seen + {key(s[from])} {
          var i :| 0 <= i < from + 1 && key(s[..from + 1][i]) == k;
          if i < from { assert key(s[..from][i]) == k; }
        }
        forall k | k in seen ensures k in seen' {
          var i :| 0 <= i < from && key(s[..from][i]) == k;
          assert key(s[..from + 1][i]) == k;
        }
        assert key(s[..from + 1][from]) == key(s[from]);
      }
      SeenBeforeIffEarlierIndex(s, key, from);
      DedupByFirstOccurrencesFrom(s, key, from + 1);
      assert s[from..][1..] == s[from + 1..];
      if key(s[from]) in seen {
        assert seen + {key(s[from])} == seen;
      }
    }
  }

  /** Starting from nothing seen, deduplication is the first-occurrence filter. */
  lemma DedupByFirstOccurrences<T(!new), K>(s: seq<T>, key: T -> K)
    ensures DedupBy(s, key, {}) == FirstOccurrencesFrom(s, key, 0)
  {
    DedupByFirstOccurrencesFrom(s, key, 0);
    assert s[0..] == s;
    assert KeysOf(s[..0], key) == {};
  }

  /** Deduplicating a concatenation: the second part starts with the keys of the
      first part already seen. */
  lemma {:induction false} DedupByAppend<T(!new), K>(a: seq<T>, b: seq<T>, key: T -> K, seen: set<K>)
    ensures DedupBy(a + b, key, seen) == DedupBy(a, key, seen) + DedupBy(b, key, seen + KeysOf(a, key))
    decreases |a|
  {
    if a == [] {
      assert a + b == b;
      assert KeysOf(a, key) == {};
      assert seen + KeysOf(a, key) == seen;
    } else {
      assert (a + b)[0] == a[0] && (a + b)[1..] == a[1..] + b;
      var k := key(a[0]);
      KeysOfCons(a, key);
      if k in seen {
        DedupByAppend(a[1..], b, key, seen);
        assert seen + KeysOf(a, key) == seen + KeysOf(a[1..], key);
      } else {
        DedupByAppend(a[1..], b, key, seen + {k});
        assert seen + {k} + KeysOf(a[1..], key) == seen + KeysOf(a, key);
      }
    }
  }

  /** Index of the first element satisfying `p`, or |s| when none does: the
      position at which a `for ... of` loop with an early `return` stops. */
  function FirstIndexWhere<T>(s: seq<T>, p: T -> bool): (i: nat)
    ensures i <= |s|
    ensures i < |s| ==> p(s[i])
    ensures forall j :: 0 <= j < i ==> !p(s[j])
    decreases |s|
  {
    if s == [] then 0 else if p(s[0]) then 0 else 1 + FirstIndexWhere(s[1..], p)
  }

  function Last<T>(s: seq<T>): T
    requires s != []
  {
    s[|s| - 1]
  }

  predicate StrictlyIncreasing(idx: seq<nat>) {
    forall i, j :: 0 <= i < j < |idx| ==> idx[i] < idx[j]
  }

  /** An increasing list stays increasing with a smaller element in front. */
  lemma IncreasingCons(x: nat, e: seq<nat>)
    requires StrictlyIncreasing(e)
    requires forall k :: 0 <= k < |e| ==> x < e[k]
    ensures StrictlyIncreasing([x] + e)
  {
    var front := [x] + e;
    forall i, j | 0 <= i < j < |front| ensures front[i] < front[j] {
      if i > 0 { assert front[i] == e[i - 1]; }
      assert front[j] == e[j - 1];
    }
  }

  /** An increasing list stays increasing with a larger element at the end. */
  lemma IncreasingSnoc(e: seq<nat>, y: nat)
    requires StrictlyIncreasing(e)
    requires forall k :: 0 <= k < |e| ==> e[k] < y
    ensures StrictlyIncreasing(e + [y])
  {
    var back := e + [y];
    forall i, j | 0 <= i < j < |back| ensures back[i] < back[j] {
      assert back[i] == e[i];
    }
  }

  /** The elements of `s` at the positions `idx`. */
  function Pick<T>(s: seq<T>, idx: seq<nat>): (r: seq<T>)
    requires forall k :: 0 <= k < |idx| ==> idx[k] < |s|
    ensures |r| == |idx|
    ensures forall k :: 0 <= k < |idx| ==> r[k] == s[idx[k]]
  {
    seq(|idx|, k requires 0 <= k < |idx| => s[idx[k]])
  }

  lemma PickAppend<T>(s: seq<T>, a: seq<nat>, b: seq<nat>)
    requires forall k :: 0 <= k < |a| ==> a[k] < |s|
    requires forall k :: 0 <= k < |b| ==> b[k] < |s|
    ensures Pick(s, a + b) == Pick(s, a) + Pick(s, b)
  {
  }

  /** Picking at strictly increasing positions yields a subsequence. */
  lemma {:induction false} PickIsSubsequence<T>(s: seq<T>, idx: seq<nat>)
    requires forall k :: 0 <= k < |idx| ==> idx[k] < |s|
    requires StrictlyIncreasing(idx)
    ensures IsSubsequence(Pick(s, idx), s)
    decreases |s|
  {
    var r := Pick(s, idx);
    if idx != [] {
      if idx[0] == 0 {
        var rest := seq(|idx| - 1, k requires 0 <= k < |idx| - 1 => (idx[k + 1] - 1) as nat);
        PickIsSubsequence(s[1..], rest);
        assert Pick(s[1..], rest) == r[1..];
      } else {
        var shifted := seq(|idx|, k requires 0 <= k < |idx| => (idx[k] - 1) as nat);
        PickIsSubsequence(s[1..], shifted);
        assert Pick(s[1..], shifted) == r;
      }
    }
  }

  /** `s.reduce((sum, x) => sum + x, 0)`. */
  function Sum(s: seq<int>): int
    decreases |s|
  {
    if s == [] then 0 else s[0] + Sum(s[1..])
  }

  lemma {:induction false} SumAppend(a: seq<int>, b: seq<int>)
    ensures Sum(a + b) == Sum(a) + Sum(b)
    decreases |a|
  {
    if a == [] {
      assert a + b == b;
    } else {
      assert (a + b)[1..] == a[1..] + b;
      SumAppend(a[1..], b);
    }
  }

  /** Bounds on every element bound the sum. */
  lemma {:induction false} SumBounds(s: seq<int>, lo: int, hi: int)
    requires forall i :: 0 <= i < |s| ==> lo <= s[i] <= hi
    ensures |s| * lo <= Sum(s) <= |s| * hi
    decreases |s|
  {
    if s != [] {
      SumBounds(s[1..], lo, hi);
    }
  }

  /** `Math.round(sum / count)`. */
  function RoundedMean(s: seq<int>): int
    requires s != []
  {
    Round(Sum(s) as real / |s| as real)
  }

  /** A rounded mean lies between any bounds on its elements, so between the
      smallest and the largest of them. */
  lemma RoundedMeanBetween(s: seq<int>, lo: int, hi: int)
    requires s != []
    requires forall i :: 0 <= i < |s| ==> lo <= s[i] <= hi
    ensures lo <= RoundedMean(s) <= hi
  {
    SumBounds(s, lo, hi);
    MeanBetween(Sum(s), |s|, lo, hi);
    RoundBetween(Sum(s) as real / |s| as real, lo, hi);
  }

  /** A total between `count` times two bounds has its mean between the bounds. */
  lemma MeanBetween(total: int, count: nat, lo: int, hi: int)
    requires count > 0 && count * lo <= total <= count * hi
    ensures lo as real <= total as real / count as real <= hi as real
  {
    CastProduct(lo, count);
    CastProduct(hi, count);
    QuotientBetween(total as real, count as real, lo as real, hi as real);
  }

  /** Converting a product to a real multiplies the converted factors. */
  lemma {:induction false} CastProduct(a: int, b: nat)
    ensures (b * a) as real == (a as real) * (b as real)
    decreases b
  {
    if b > 0 {
      CastProduct(a, b - 1);
      assert b * a == (b - 1) * a + a;
      assert (a as real) * (b as real) == (a as real) * ((b - 1) as real) + a as real;
    }
  }

  /** A value between the same positive multiples of two bounds, divided by that
      multiple, lies between the bounds. */
  lemma QuotientBetween(x: real, t: real, lo: real, hi: real)
    requires t > 0.0 && lo * t <= x <= hi * t
    ensures lo <= x / t <= hi
  {
    var q := x / t;
    assert q * t == x;
    assert (q - lo) * t >= 0.0;
    assert (hi - q) * t >= 0.0;
  }

  /** The rounded mean of one value is that value. */
  lemma RoundedMeanSingle(x: int)
    ensures RoundedMean([x]) == x
  {
    assert Sum([x]) == x;
    RoundOfInt(x);
  }
}
