/**
 * The ranking behind `top3Videos`: `[...videos].sort((a, b) => (b.play_count || 0) - (a.play_count || 0))`.
 * JavaScript's `Array.prototype.sort` is stable, so videos with equal views keep
 * their listing order; the model is a stable insertion sort on a copy.
 */
module Ranking {
  import opened Videos

  /** Views never increase along `s`. */
  predicate ByViewsDescending(s: seq<RawVideo>) {
    forall i, j :: 0 <= i < j < |s| ==> Views(s[j]) <= Views(s[i])
  }

  /** The videos of `s` that have exactly `k` views, in the order of `s`. */
  function WithViews(s: seq<RawVideo>, k: nat): seq<RawVideo> {
    if s == [] then []
    else (if Views(s[0]) == k then [s[0]] else []) + WithViews(s[1..], k)
  }

  /**
   * Puts `v` after every video with more views and before the rest: the
   * insertion step of a stable sort into a ranking that is already sorted.
   */
  function Insert(v: RawVideo, s: seq<RawVideo>): (r: seq<RawVideo>)
    ensures |r| == |s| + 1
    ensures multiset(r) == multiset{v} + multiset(s)
    ensures ByViewsDescending(s) ==> ByViewsDescending(r)
  {
    if s == [] || Views(s[0]) <= Views(v) then [v] + s
    else
      var t := Insert(v, s[1..]);
      assert s == [s[0]] + s[1..];
      ConsKeepsOrder(s[0], t, v, s[1..]);
      [s[0]] + t
  }

  /** A head with more views than any of `v` and `rest` can go in front of a ranking of them. */
  lemma ConsKeepsOrder(x: RawVideo, t: seq<RawVideo>, v: RawVideo, rest: seq<RawVideo>)
    requires multiset(t) == multiset{v} + multiset(rest)
    requires Views(v) < Views(x)
    ensures ByViewsDescending([x] + rest) && ByViewsDescending(t) ==> ByViewsDescending([x] + t)
  {
    if ByViewsDescending([x] + rest) && ByViewsDescending(t) {
      forall i, j | 0 <= i < j < |[x] + t| ensures Views(([x] + t)[j]) <= Views(([x] + t)[i]) {
        var y := t[j - 1];
        assert ([x] + t)[j] == y;
        if i == 0 {
          assert ([x] + t)[0] == x;
          assert y in multiset(t);
          if y != v {
            assert y in multiset(rest);
            var k :| 0 <= k < |rest| && rest[k] == y;
            assert ([x] + rest)[k + 1] == y && ([x] + rest)[0] == x;
          }
        } else {
          assert ([x] + t)[i] == t[i - 1];
        }
      }
    }
  }

  /** `[...videos].sort(...)`: a stable sort by descending views. */
  function SortByViews(vs: seq<RawVideo>): (r: seq<RawVideo>)
    ensures |r| == |vs|
    ensures multiset(r) == multiset(vs)
    ensures ByViewsDescending(r)
  {
    if vs == [] then []
    else
      assert vs == [vs[0]] + vs[1..];
      Insert(vs[0], SortByViews(vs[1..]))
  }

  lemma WithViewsCons(x: RawVideo, t: seq<RawVideo>, k: nat)
    ensures WithViews([x] + t, k) == (if Views(x) == k then [x] else []) + WithViews(t, k)
  {
    assert ([x] + t)[1..] == t;
  }

  /** Inserting `v` adds it to its own tie class, at the front, and leaves the others alone. */
  lemma {:induction false} InsertKeepsTies(v: RawVideo, s: seq<RawVideo>, k: nat)
    ensures WithViews(Insert(v, s), k) == (if Views(v) == k then [v] else []) + WithViews(s, k)
  {
    if s == [] || Views(s[0]) <= Views(v) {
      assert Insert(v, s) == [v] + s;
      WithViewsCons(v, s, k);
    } else {
      assert Insert(v, s) == [s[0]] + Insert(v, s[1..]);
      InsertKeepsTies(v, s[1..], k);
      WithViewsCons(s[0], Insert(v, s[1..]), k);
      WithViewsCons(s[0], s[1..], k);
      assert s == [s[0]] + s[1..];
      if Views(v) == k {
        assert Views(s[0]) != k;
      }
    }
  }

  /** The sorted copy holds the same videos, ranked by views with ties in listing order. */
  lemma {:induction false} SortByViewsCorrect(vs: seq<RawVideo>)
    ensures |SortByViews(vs)| == |vs|
    ensures multiset(SortByViews(vs)) == multiset(vs)
    ensures ByViewsDescending(SortByViews(vs))
    ensures forall k: nat :: WithViews(SortByViews(vs), k) == WithViews(vs, k)
  {
    if vs != [] {
      SortByViewsCorrect(vs[1..]);
      var rest := SortByViews(vs[1..]);
      assert vs == [vs[0]] + vs[1..];
      forall k: nat ensures WithViews(SortByViews(vs), k) == WithViews(vs, k) {
        InsertKeepsTies(vs[0], rest, k);
      }
      assert |multiset(SortByViews(vs))| == |multiset(vs)|;
    }
  }
}
