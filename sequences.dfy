/**
 * The two sequence shapes the server builds over and over: keeping the
 * elements a test accepts, in order (a `for` loop that pushes into a results
 * array, or `filter` followed by `map`), and a stable sort by a string key
 * (`Array.prototype.sort`, which the language has required to be stable
 * since ECMAScript 2019).
 */
module Sequences {
  import opened Options
  import opened JsStrings

  function AsSeq<U>(o: Option<U>): seq<U> {
    match o
    case None => []
    case Some(y) => [y]
  }

  lemma AfterEmpty<T>(xs: seq<T>)
    ensures [] + xs == xs
  {
  }

  /** Pushing the next element of `xs` onto a prefix of it extends the prefix by one. */
  lemma PushNext<T>(before: seq<T>, xs: seq<T>, k: nat)
    requires k < |xs|
    ensures before + xs[..k] + [xs[k]] == before + xs[..k + 1]
  {
    assert xs[..k + 1] == xs[..k] + [xs[k]];
  }

  /** The results a left-to-right scan collects: `f(x)` for every `x` that `f` keeps. */
  function FilterMap<T, U>(xs: seq<T>, f: T -> Option<U>): seq<U> {
    if xs == [] then [] else FilterMap(xs[..|xs| - 1], f) + AsSeq(f(xs[|xs| - 1]))
  }

  /** The positions of `xs` that `f` keeps. */
  function KeptPositions<T, U>(xs: seq<T>, f: T -> Option<U>): seq<nat> {
    if xs == [] then []
    else KeptPositions(xs[..|xs| - 1], f) + (if f(xs[|xs| - 1]).Some? then [|xs| - 1] else [])
  }

  /**
   * A filter-map keeps exactly the elements `f` accepts, each once, in their
   * original order: the k-th result comes from the k-th kept position.
   */
  lemma {:induction false} FilterMapKeeps<T, U>(xs: seq<T>, f: T -> Option<U>)
    ensures |FilterMap(xs, f)| == |KeptPositions(xs, f)|
    ensures forall k :: 0 <= k < |KeptPositions(xs, f)| ==>
      KeptPositions(xs, f)[k] < |xs| && f(xs[KeptPositions(xs, f)[k]]) == Some(FilterMap(xs, f)[k])
    ensures forall k, l :: 0 <= k < l < |KeptPositions(xs, f)| ==> KeptPositions(xs, f)[k] < KeptPositions(xs, f)[l]
    ensures forall j :: 0 <= j < |xs| ==> (f(xs[j]).Some? <==> j in KeptPositions(xs, f))
  {
    KeptPositionsExactly(xs, f);
    if xs != [] {
      var init, last := xs[..|xs| - 1], xs[|xs| - 1];
      var kept, pos := FilterMap(init, f), KeptPositions(init, f);
      FilterMapKeeps(init, f);
      assert forall j :: 0 <= j < |init| ==> xs[j] == init[j];
      if f(last).Some? {
        assert FilterMap(xs, f) == kept + [f(last).value];
        assert KeptPositions(xs, f) == pos + [|xs| - 1];
      } else {
        assert FilterMap(xs, f) == kept;
        assert KeptPositions(xs, f) == pos;
      }
    }
  }

  /** The kept positions are increasing, and they are exactly the positions `f` keeps. */
  lemma {:induction false} KeptPositionsExactly<T, U>(xs: seq<T>, f: T -> Option<U>)
    ensures forall k :: 0 <= k < |KeptPositions(xs, f)| ==> KeptPositions(xs, f)[k] < |xs|
    ensures forall k, l :: 0 <= k < l < |KeptPositions(xs, f)| ==> KeptPositions(xs, f)[k] < KeptPositions(xs, f)[l]
    ensures forall j :: 0 <= j < |xs| ==> (f(xs[j]).Some? <==> j in KeptPositions(xs, f))
  {
    if xs != [] {
      var init := xs[..|xs| - 1];
      KeptPositionsExactly(init, f);
      assert forall j :: 0 <= j < |init| ==> xs[j] == init[j];
    }
  }

  /** When `f` keeps every element, the filter-map is a plain map, position by position. */
  lemma {:induction false} FilterMapAll<T, U>(xs: seq<T>, f: T -> Option<U>)
    requires forall j :: 0 <= j < |xs| ==> f(xs[j]).Some?
    ensures |FilterMap(xs, f)| == |xs|
    ensures forall k :: 0 <= k < |xs| ==> Some(FilterMap(xs, f)[k]) == f(xs[k])
  {
    if xs != [] {
      var init := xs[..|xs| - 1];
      assert forall j :: 0 <= j < |init| ==> xs[j] == init[j];
      FilterMapAll(init, f);
    }
  }

  /** Every element `f` keeps from a concatenation comes from one side or the other, in order. */
  lemma {:induction false} FilterMapAppend<T, U>(xs: seq<T>, ys: seq<T>, f: T -> Option<U>)
    ensures FilterMap(xs + ys, f) == FilterMap(xs, f) + FilterMap(ys, f)
    decreases |ys|
  {
    if ys == [] {
      assert xs + ys == xs;
    } else {
      var init, last := ys[..|ys| - 1], ys[|ys| - 1];
      FilterMapAppend(xs, init, f);
      var zs := xs + ys;
      assert zs[..|zs| - 1] == xs + init && zs[|zs| - 1] == last;
      assert FilterMap(zs, f) == FilterMap(xs + init, f) + AsSeq(f(last));
      assert FilterMap(ys, f) == FilterMap(init, f) + AsSeq(f(last));
    }
  }

  /** The distinct elements of `xs` in order of first appearance. */
  function FirstAppearances<T(==)>(xs: seq<T>): (r: seq<T>)
    ensures forall x, y :: 0 <= x < y < |r| ==> r[x] != r[y]
    ensures forall j :: 0 <= j < |xs| ==> xs[j] in r
    ensures forall x :: 0 <= x < |r| ==> r[x] in xs
    ensures forall x, y, j :: 0 <= x < y < |r| && 0 <= j < |xs| && xs[j] == r[y]  ==> r[x] in xs[..j]
  {
    if xs == [] then []
    else
      var init := xs[..|xs| - 1];
      var seen := FirstAppearances(init);
      assert forall j :: 0 <= j < |init| ==> init[j] == xs[j];
      var r := if xs[|xs| - 1] in seen then seen else seen + [xs[|xs| - 1]];
      AppearanceOrderStep(init, seen, xs, r);
      r
  }

  /** One more element keeps the distinct values in order of first appearance. */
  lemma AppearanceOrderStep<T>(init: seq<T>, seen: seq<T>, xs: seq<T>, r: seq<T>)
    requires xs != [] && init == xs[..|xs| - 1]
    requires r == if xs[|xs| - 1] in seen then seen else seen + [xs[|xs| - 1]]
    requires forall j :: 0 <= j < |init| ==> init[j] in seen
    requires forall x :: 0 <= x < |seen| ==> seen[x] in init
    requires forall x, y, j :: 0 <= x < y < |seen| && 0 <= j < |init| && init[j] == seen[y] ==> seen[x] in init[..j]
    ensures forall x, y, j :: 0 <= x < y < |r| && 0 <= j < |xs| && xs[j] == r[y]  ==> r[x] in xs[..j]
  {
    forall x, y, j | 0 <= x < y < |r| && 0 <= j < |xs| && xs[j] == r[y]
      ensures r[x] in xs[..j]
    {
      AppearanceOrderAt(init, seen, xs, r, x, y, j);
    }
  }

  lemma AppearanceOrderAt<T>(init: seq<T>, seen: seq<T>, xs: seq<T>, r: seq<T>, x: nat, y: nat, j: nat)
    requires xs != [] && init == xs[..|xs| - 1]
    requires r == if xs[|xs| - 1] in seen then seen else seen + [xs[|xs| - 1]]
    requires forall j :: 0 <= j < |init| ==> init[j] in seen
    requires forall x :: 0 <= x < |seen| ==> seen[x] in init
    requires forall x, y, j :: 0 <= x < y < |seen| && 0 <= j < |init| && init[j] == seen[y] ==> seen[x] in init[..j]
    requires x < y < |r| && j < |xs| && xs[j] == r[y]
    ensures r[x] in xs[..j]
  {
    assert r[x] == seen[x];
    if j == |init| {
      assert xs[..j] == init;
    } else {
      assert xs[j] == init[j] && init[j] in seen;
      assert r[y] == seen[y];
      assert xs[..j] == init[..j];
    }
  }

  // ---------------------------------------------------------------------------
  // Stable sorting by a string key

  predicate SortedBy<T>(s: seq<T>, key: T -> string) {
    forall i, j :: 0 <= i < j < |s| ==> !LexLess(key(s[j]), key(s[i]))
  }

  /** Places `x` after every element whose key is not greater than its own. */
  function InsertByKey<T>(s: seq<T>, x: T, key: T -> string): seq<T> {
    if s == [] then [x]
    else if LexLess(key(x), key(s[0])) then [x] + s
    else [s[0]] + InsertByKey(s[1..], x, key)
  }

  /** A stable sort by key (insertion sort, one element at a time from the left). */
  function SortByKey<T>(s: seq<T>, key: T -> string): seq<T> {
    if s == [] then [] else InsertByKey(SortByKey(s[..|s| - 1], key), s[|s| - 1], key)
  }

  /** The elements of `s` whose key is `k`, in order. */
  function WithKey<T>(s: seq<T>, key: T -> string, k: string): seq<T> {
    if s == [] then [] else (if key(s[0]) == k then [s[0]] else []) + WithKey(s[1..], key, k)
  }

  lemma {:induction false} InsertByKeyMultiset<T>(s: seq<T>, x: T, key: T -> string)
    ensures multiset(InsertByKey(s, x, key)) == multiset(s) + multiset{x}
  {
    if s != [] && !LexLess(key(x), key(s[0])) {
      InsertByKeyMultiset(s[1..], x, key);
      assert s == [s[0]] + s[1..];
    }
  }

  lemma {:induction false} InsertByKeySorted<T>(s: seq<T>, x: T, key: T -> string)
    requires SortedBy(s, key)
    ensures SortedBy(InsertByKey(s, x, key), key)
  {
    if s == [] {
    } else if LexLess(key(x), key(s[0])) {
      forall j | 0 <= j < |s| ensures !LexLess(key(s[j]), key(x)) {
        if LexLess(key(s[j]), key(x)) {
          if j > 0 {
            assert !LexLess(key(s[j]), key(s[0]));
          }
          LexLessTransitive(key(s[j]), key(x), key(s[0]));
          LexLessIrreflexive(key(s[0]));
        }
      }
      SortedCons(x, s, key);
    } else {
      var tail := InsertByKey(s[1..], x, key);
      InsertByKeySorted(s[1..], x, key);
      InsertByKeyMultiset(s[1..], x, key);
      forall j | 0 <= j < |tail| ensures !LexLess(key(tail[j]), key(s[0])) {
        var e := tail[j];
        assert e in multiset(tail);
        if e != x {
          assert e in multiset(s[1..]);
          var m :| 0 <= m < |s[1..]| && s[1..][m] == e;
          assert s[m + 1] == e;
        }
      }
      SortedCons(s[0], tail, key);
    }
  }

  /** Putting in front of a sorted sequence an element whose key is at most all of its keys keeps it sorted. */
  lemma SortedCons<T>(h: T, t: seq<T>, key: T -> string)
    requires SortedBy(t, key)
    requires forall j :: 0 <= j < |t| ==> !LexLess(key(t[j]), key(h))
    ensures SortedBy([h] + t, key)
  {
    var r := [h] + t;
    forall i, j | 0 <= i < j < |r| ensures !LexLess(key(r[j]), key(r[i])) {
      if i > 0 {
        assert r[i] == t[i - 1] && r[j] == t[j - 1];
      } else {
        assert r[j] == t[j - 1];
      }
    }
  }

  /** Sorting yields an ordering of the same elements by key. */
  lemma {:induction false} SortByKeyPermutes<T>(s: seq<T>, key: T -> string)
    ensures multiset(SortByKey(s, key)) == multiset(s)
    ensures SortedBy(SortByKey(s, key), key)
  {
    if s != [] {
      var init := s[..|s| - 1];
      SortByKeyPermutes(init, key);
      InsertByKeySorted(SortByKey(init, key), s[|s| - 1], key);
      InsertByKeyMultiset(SortByKey(init, key), s[|s| - 1], key);
      assert s == init + [s[|s| - 1]];
    }
  }

  /** Sorting keeps the length. */
  lemma SortByKeyLength<T>(s: seq<T>, key: T -> string)
    ensures |SortByKey(s, key)| == |s|
  {
    SortByKeyPermutes(s, key);
    assert |multiset(SortByKey(s, key))| == |multiset(s)|;
  }

  /** The first element after sorting is one of the input's elements, and no element's key is below its key. */
  lemma SortByKeyHead<T>(s: seq<T>, key: T -> string)
    requires s != []
    ensures var sorted := SortByKey(s, key);
      |sorted| == |s| && sorted[0] in s && forall j :: 0 <= j < |s| ==> !LexLess(key(s[j]), key(sorted[0]))
  {
    var sorted := SortByKey(s, key);
    SortByKeyPermutes(s, key);
    assert |sorted| == |s| by {
      assert |multiset(sorted)| == |multiset(s)|;
    }
    assert sorted[0] in multiset(s);
    forall j | 0 <= j < |s|
      ensures !LexLess(key(s[j]), key(sorted[0]))
    {
      assert s[j] in multiset(sorted);
      var m :| 0 <= m < |sorted| && sorted[m] == s[j];
      if m == 0 {
        LexLessIrreflexive(key(s[j]));
      }
    }
  }

  lemma {:induction false} WithKeyAppend<T>(a: seq<T>, b: seq<T>, key: T -> string, k: string)
    ensures WithKey(a + b, key, k) == WithKey(a, key, k) + WithKey(b, key, k)
  {
    if a == [] {
      assert a + b == b;
    } else {
      var t, ab := a[1..], a + b;
      WithKeyAppend(t, b, key, k);
      var head := if key(a[0]) == k then [a[0]] else [];
      var wt, wb := WithKey(t, key, k), WithKey(b, key, k);
      assert WithKey(ab, key, k) == head + (wt + wb) by {
        assert ab[0] == a[0] && ab[1..] == t + b;
      }
      assert WithKey(a, key, k) == head + wt;
      assert head + (wt + wb) == (head + wt) + wb;
    }
  }

  lemma {:induction false} WithKeyNone<T>(s: seq<T>, key: T -> string, k: string)
    requires forall i :: 0 <= i < |s| ==> key(s[i]) != k
    ensures WithKey(s, key, k) == []
  {
    if s != [] {
      WithKeyNone(s[1..], key, k);
    }
  }

  lemma {:induction false} InsertByKeyStable<T>(s: seq<T>, x: T, key: T -> string, k: string)
    requires SortedBy(s, key)
    ensures WithKey(InsertByKey(s, x, key), key, k) == WithKey(s, key, k) + WithKey([x], key, k)
  {
    if s == [] {
    } else if LexLess(key(x), key(s[0])) {
      if key(x) == k {
        forall i | 0 <= i < |s| ensures key(s[i]) != k {
          if i > 0 {
            assert !LexLess(key(s[i]), key(s[0]));
          } else {
            LexLessIrreflexive(k);
          }
        }
        WithKeyNone(s, key, k);
      }
      assert InsertByKey(s, x, key) == [x] + s;
      WithKeyAppend([x], s, key, k);
    } else {
      var t := s[1..];
      var ins := InsertByKey(t, x, key);
      InsertByKeyStable(t, x, key, k);
      assert InsertByKey(s, x, key) == [s[0]] + ins;
      WithKeyAppend([s[0]], ins, key, k);
      assert s == [s[0]] + t;
      WithKeyAppend([s[0]], t, key, k);
      var w0, wt, wx := WithKey([s[0]], key, k), WithKey(t, key, k), WithKey([x], key, k);
      assert w0 + (wt + wx) == (w0 + wt) + wx;
    }
  }

  /** Stability: elements with equal keys keep their relative order. */
  lemma {:induction false} SortByKeyStable<T>(s: seq<T>, key: T -> string, k: string)
    ensures WithKey(SortByKey(s, key), key, k) == WithKey(s, key, k)
  {
    if s != [] {
      var init, last := s[..|s| - 1], s[|s| - 1];
      var sorted := SortByKey(init, key);
      assert SortByKey(s, key) == InsertByKey(sorted, last, key);
      SortByKeyStable(init, key, k);
      SortByKeyPermutes(init, key);
      InsertByKeyStable(sorted, last, key, k);
      assert s == init + [last];
      WithKeyAppend(init, [last], key, k);
    }
  }

  /** An element whose key is not below any key of `s` goes at the end. */
  lemma {:induction false} InsertByKeyAtEnd<T>(s: seq<T>, x: T, key: T -> string)
    requires forall i :: 0 <= i < |s| ==> !LexLess(key(x), key(s[i]))
    ensures InsertByKey(s, x, key) == s + [x]
  {
    if s != [] {
      InsertByKeyAtEnd(s[1..], x, key);
      assert s == [s[0]] + s[1..];
    }
  }

  /** Sorting what is already sorted changes nothing: a second sort keeps the order of the first. */
  lemma {:induction false} SortByKeyIdempotent<T>(s: seq<T>, key: T -> string)
    requires SortedBy(s, key)
    ensures SortByKey(s, key) == s
  {
    if s != [] {
      var init := s[..|s| - 1];
      assert SortedBy(init, key);
      SortByKeyIdempotent(init, key);
      InsertByKeyAtEnd(init, s[|s| - 1], key);
      assert s == init + [s[|s| - 1]];
    }
  }
}
