/** Small vocabulary shared by the models: optional values, map reads with Go's zero
    value, and finite sums over sets. */
module Prelude {

  datatype Option<+T> = None | Some(value: T)

  /** A Go map read: the zero value when the key is absent. */
  function Get<K, V>(m: map<K, V>, k: K, zero: V): V {
    if k in m then m[k] else zero
  }

  /** The sum of the weights of a set; an element without a weight counts 0. */
  ghost function Sum<K>(s: set<K>, w: map<K, int>): int {
    if s == {} then 0
    else
      var x :| x in s;
      Get(w, x, 0) + Sum(s - {x}, w)
  }

  /** Any element may be taken out first, so a sum does not depend on iteration order. */
  lemma {:induction false} SumTakeOut<K>(s: set<K>, w: map<K, int>, x: K)
    requires x in s
    ensures Sum(s, w) == Get(w, x, 0) + Sum(s - {x}, w)
    decreases s
  {
    var y :| y in s && Sum(s, w) == Get(w, y, 0) + Sum(s - {y}, w);
    if y != x {
      SumTakeOut(s - {y}, w, x);
      SumTakeOut(s - {x}, w, y);
      assert s - {y} - {x} == s - {x} - {y};
    }
  }

  lemma {:induction false} SumAgree<K>(s: set<K>, v: map<K, int>, w: map<K, int>)
    requires forall x :: x in s ==> Get(v, x, 0) == Get(w, x, 0)
    ensures Sum(s, v) == Sum(s, w)
    decreases s
  {
    if s == {} {
    } else {
      var x :| x in s;
      SumTakeOut(s, v, x);
      SumTakeOut(s, w, x);
      SumAgree(s - {x}, v, w);
    }
  }

  lemma {:induction false} SumDisjointUnion<K>(s: set<K>, t: set<K>, w: map<K, int>)
    requires s !! t
    ensures Sum(s + t, w) == Sum(s, w) + Sum(t, w)
    decreases s
  {
    if s == {} {
      assert s + t == t;
    } else {
      var x :| x in s;
      SumTakeOut(s, w, x);
      SumTakeOut(s + t, w, x);
      assert s + t - {x} == (s - {x}) + t;
      SumDisjointUnion(s - {x}, t, w);
    }
  }

  // ---- reordering sequences

  lemma RemoveAt<T>(s: seq<T>, k: nat)
    requires k < |s|
    ensures multiset(s[..k] + s[k + 1..]) == multiset(s) - multiset{s[k]}
  {
    assert s == s[..k] + [s[k]] + s[k + 1..];
  }

  lemma TakenAndReturned<T>(m: multiset<T>, x: T)
    requires x in m
    ensures m - multiset{x} + multiset{x} == m
  {
  }

  lemma PutBack<T>(rest: seq<T>, x: T, y: T, all: multiset<T>)
    requires y in all && x in all - multiset{y} && multiset(rest) == all - multiset{y} - multiset{x}
    ensures multiset(rest + [x, y]) == all
  {
    TakenAndReturned(all, y);
    TakenAndReturned(all - multiset{y}, x);
    assert rest + [x, y] == rest + [x] + [y];
    assert multiset(rest + [x]) == multiset(rest) + multiset{x};
  }

  lemma SwapLast<T>(rest: seq<T>, x: T, y: T)
    ensures multiset(rest + [x, y]) == multiset(rest + [y, x])
  {
    assert multiset(rest + [x, y]) == multiset(rest) + multiset([x, y]);
    assert multiset(rest + [y, x]) == multiset(rest) + multiset([y, x]);
    assert multiset([x, y]) == multiset([y, x]);
  }

  lemma TwiceInMultiset<T>(s: seq<T>, j: nat, k: nat)
    requires j < |s| && k < |s| && j != k && s[j] == s[k]
    ensures multiset(s)[s[j]] >= 2
  {
    var lo, hi := if j < k then j else k, if j < k then k else j;
    assert s == s[..lo] + [s[lo]] + s[lo + 1..hi] + [s[hi]] + s[hi + 1..];
  }
}
