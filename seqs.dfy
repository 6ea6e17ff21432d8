/** Generic facts about sequences: filtering (a list comprehension with a guard),
    subsequences, and weighted sums grouped by a key. */
module Seqs {

  /** The elements of s that satisfy p, in their original order. */
  function Filter<T>(s: seq<T>, p: T -> bool): (r: seq<T>)
    ensures |r| <= |s|
    ensures forall i :: 0 <= i < |r| ==> r[i] in s && p(r[i])
    ensures forall i :: 0 <= i < |s| && p(s[i]) ==> s[i] in r
    decreases |s|
  {
    if s == [] then []
    else
      assert s == s[..|s| - 1] + [s[|s| - 1]];
      Filter(s[..|s| - 1], p) + (if p(s[|s| - 1]) then [s[|s| - 1]] else [])
  }

  /** f applied to each element of xs, in order (a list comprehension without a guard). */
  function MapSeq<T, U>(xs: seq<T>, f: T -> U): (r: seq<U>)
    ensures |r| == |xs|
    ensures forall i :: 0 <= i < |xs| ==> r[i] == f(xs[i])
    decreases |xs|
  {
    if xs == [] then [] else MapSeq(xs[..|xs| - 1], f) + [f(xs[|xs| - 1])]
  }

  /** a is obtained from b by deleting elements: nothing is added and relative order is kept. */
  ghost predicate IsSubsequence<T>(a: seq<T>, b: seq<T>)
    decreases |b|
  {
    if a == [] then true
    else if b == [] then false
    else
      (a[|a| - 1] == b[|b| - 1] && IsSubsequence(a[..|a| - 1], b[..|b| - 1]))
      || IsSubsequence(a, b[..|b| - 1])
  }

  predicate Distinct<T(==)>(s: seq<T>) {
    forall i, j :: 0 <= i < j < |s| ==> s[i] != s[j]
  }

  lemma {:induction false} FilterIsSubsequence<T>(s: seq<T>, p: T -> bool)
    ensures IsSubsequence(Filter(s, p), s)
    decreases |s|
  {
    if s != [] {
      var init, last := s[..|s| - 1], s[|s| - 1];
      FilterIsSubsequence(init, p);
      var r := Filter(s, p);
      if p(last) {
        assert r == Filter(init, p) + [last];
        assert r[..|r| - 1] == Filter(init, p);
      } else {
        assert r == Filter(init, p);
      }
    }
  }

  /** Filtering depends only on the values of the predicate on the elements. */
  lemma {:induction false} FilterExt<T>(s: seq<T>, p: T -> bool, q: T -> bool)
    requires forall i :: 0 <= i < |s| ==> p(s[i]) == q(s[i])
    ensures Filter(s, p) == Filter(s, q)
    decreases |s|
  {
    if s != [] {
      FilterExt(s[..|s| - 1], p, q);
    }
  }

  /** Filtering by p and then by q is filtering by both at once. */
  lemma {:induction false} FilterCompose<T>(s: seq<T>, p: T -> bool, q: T -> bool, pq: T -> bool)
    requires forall i :: 0 <= i < |s| ==> pq(s[i]) == (p(s[i]) && q(s[i]))
    ensures Filter(Filter(s, p), q) == Filter(s, pq)
    decreases |s|
  {
    if s != [] {
      var init, last := s[..|s| - 1], s[|s| - 1];
      FilterCompose(init, p, q, pq);
      var fp := Filter(init, p);
      if p(last) {
        calc {
          Filter(Filter(s, p), q);
          { assert Filter(s, p) == fp + [last]; }
          Filter(fp + [last], q);
          { assert (fp + [last])[..|fp|] == fp; }
          Filter(fp, q) + (if q(last) then [last] else []);
        }
      } else {
        assert Filter(s, p) == fp;
      }
    }
  }

  /** A filter that keeps every element changes nothing. */
  lemma {:induction false} FilterKeepsAll<T>(s: seq<T>, p: T -> bool)
    requires forall i :: 0 <= i < |s| ==> p(s[i])
    ensures Filter(s, p) == s
    decreases |s|
  {
    if s != [] {
      FilterKeepsAll(s[..|s| - 1], p);
    }
  }

  /** A filter that keeps no element gives the empty sequence. */
  lemma {:induction false} FilterKeepsNone<T>(s: seq<T>, p: T -> bool)
    requires forall i :: 0 <= i < |s| ==> !p(s[i])
    ensures Filter(s, p) == []
    decreases |s|
  {
    if s != [] {
      FilterKeepsNone(s[..|s| - 1], p);
    }
  }

  /** Filtering twice by the same predicate is filtering once. */
  lemma FilterIdempotent<T>(s: seq<T>, p: T -> bool)
    ensures Filter(Filter(s, p), p) == Filter(s, p)
  {
    FilterKeepsAll(Filter(s, p), p);
  }

  /** Sum of weight(x) over all elements x of s. */
  function Sum<T>(s: seq<T>, weight: T -> int): int
    decreases |s|
  {
    if s == [] then 0 else Sum(s[..|s| - 1], weight) + weight(s[|s| - 1])
  }

  /** Sum of weight(x) over the elements x of s whose key lies in keys. */
  function WeightIn<T, K>(s: seq<T>, key: T -> K, weight: T -> int, keys: set<K>): int
    decreases |s|
  {
    if s == [] then 0
    else WeightIn(s[..|s| - 1], key, weight, keys) + (if key(s[|s| - 1]) in keys then weight(s[|s| - 1]) else 0)
  }

  /** WeightIn(s, key, weight, {k}) summed for k along ks. */
  function SumPerKey<T, K(==)>(s: seq<T>, key: T -> K, weight: T -> int, ks: seq<K>): int
    decreases |ks|
  {
    if ks == [] then 0
    else SumPerKey(s, key, weight, ks[..|ks| - 1]) + WeightIn(s, key, weight, {ks[|ks| - 1]})
  }

  /** Sum of measure(m[k]) over the keys k of ks. */
  function SumValues<K, V>(m: map<K, V>, ks: seq<K>, measure: V -> int): int
    requires forall i :: 0 <= i < |ks| ==> ks[i] in m
    decreases |ks|
  {
    if ks == [] then 0 else SumValues(m, ks[..|ks| - 1], measure) + measure(m[ks[|ks| - 1]])
  }

  /** The weight of a disjoint union of key sets is the sum of the weights. */
  lemma {:induction false} WeightInUnion<T, K>(s: seq<T>, key: T -> K, weight: T -> int, a: set<K>, b: set<K>)
    requires a !! b
    ensures WeightIn(s, key, weight, a + b) == WeightIn(s, key, weight, a) + WeightIn(s, key, weight, b)
    decreases |s|
  {
    if s != [] {
      WeightInUnion(s[..|s| - 1], key, weight, a, b);
    }
  }

  /** Summing the per-key weights over distinct keys gives the weight of all those keys together. */
  lemma {:induction false} SumPerKeyDistinct<T, K>(s: seq<T>, key: T -> K, weight: T -> int, ks: seq<K>)
    requires Distinct(ks)
    ensures SumPerKey(s, key, weight, ks) == WeightIn(s, key, weight, set k | k in ks)
    decreases |ks|
  {
    var all := set k | k in ks;
    if ks == [] {
      assert all == {};
      WeightInNoKeys(s, key, weight);
    } else {
      var init, last := ks[..|ks| - 1], ks[|ks| - 1];
      var rest := set k | k in init;
      SumPerKeyDistinct(s, key, weight, init);
      assert last !in rest;
      assert all == rest + {last} by {
        assert ks == init + [last];
      }
      WeightInUnion(s, key, weight, rest, {last});
    }
  }

  lemma {:induction false} WeightInNoKeys<T, K>(s: seq<T>, key: T -> K, weight: T -> int)
    ensures WeightIn(s, key, weight, {}) == 0
    decreases |s|
  {
    if s != [] {
      WeightInNoKeys(s[..|s| - 1], key, weight);
    }
  }

  /** When every element of nonzero weight has its key in keys, WeightIn is the whole sum. */
  lemma {:induction false} WeightInCovering<T, K>(s: seq<T>, key: T -> K, weight: T -> int, keys: set<K>)
    requires forall i :: 0 <= i < |s| ==> key(s[i]) in keys || weight(s[i]) == 0
    ensures WeightIn(s, key, weight, keys) == Sum(s, weight)
    decreases |s|
  {
    if s != [] {
      WeightInCovering(s[..|s| - 1], key, weight, keys);
    }
  }

  /** With non-negative weights, the weight of any key set lies between 0 and the whole sum. */
  lemma {:induction false} WeightInBounds<T, K>(s: seq<T>, key: T -> K, weight: T -> int, keys: set<K>)
    requires forall i :: 0 <= i < |s| ==> weight(s[i]) >= 0
    ensures 0 <= WeightIn(s, key, weight, keys) <= Sum(s, weight)
    decreases |s|
  {
    if s != [] {
      WeightInBounds(s[..|s| - 1], key, weight, keys);
    }
  }

  /** A map whose value at each key measures that key's weight sums like SumPerKey. */
  lemma {:induction false} SumValuesPerKey<T, K, V>(m: map<K, V>, measure: V -> int, s: seq<T>, key: T -> K,
                                                    weight: T -> int, ks: seq<K>)
    requires forall i :: 0 <= i < |ks| ==> ks[i] in m
    requires forall k :: k in m ==> measure(m[k]) == WeightIn(s, key, weight, {k})
    ensures SumValues(m, ks, measure) == SumPerKey(s, key, weight, ks)
    decreases |ks|
  {
    if ks != [] {
      SumValuesPerKey(m, measure, s, key, weight, ks[..|ks| - 1]);
    }
  }

  /** With non-negative weights the sum is non-negative. */
  lemma {:induction false} SumNonNegative<T>(s: seq<T>, weight: T -> int)
    requires forall i :: 0 <= i < |s| ==> weight(s[i]) >= 0
    ensures Sum(s, weight) >= 0
    decreases |s|
  {
    if s != [] {
      SumNonNegative(s[..|s| - 1], weight);
    }
  }

  /** Extending a prefix by one element adds that element's weight. */
  lemma SumPrefix<T>(s: seq<T>, weight: T -> int, j: nat)
    requires j < |s|
    ensures Sum(s[..j + 1], weight) == Sum(s[..j], weight) + weight(s[j])
  {
    assert s[..j + 1][..j] == s[..j];
  }
}
