/**
 * The table algebra the analytics rely on, generic in the row type:
 * boolean-mask selection (`df[mask]`), pandas `groupby` keys (null keys dropped,
 * keys in ascending order), per-group row lists, `sort_values(ascending=False)`
 * (stable, as pandas is for small tables), `head(n)` and column sums.
 */
module Grouping {
  import opened Wrappers
  import opened Text

  // ---------------------------------------------------------------- selection

  /** `df[mask]`: the rows satisfying `p`, in their original order. */
  function Where<T(==)>(s: seq<T>, p: T -> bool): (r: seq<T>)
    ensures |r| <= |s|
    ensures forall i :: 0 <= i < |r| ==> r[i] in s && p(r[i])
    ensures forall i :: 0 <= i < |s| && p(s[i]) ==> s[i] in r
  {
    if s == [] then [] else (if p(s[0]) then [s[0]] else []) + Where(s[1..], p)
  }

  /** `r` is obtained from `s` by deleting elements (order preserved). */
  predicate IsSubsequence<T(==)>(r: seq<T>, s: seq<T>)
    decreases |s|
  {
    if r == [] then true
    else if s == [] then false
    else if r[0] == s[0] then IsSubsequence(r[1..], s[1..])
    else IsSubsequence(r, s[1..])
  }

  lemma {:induction false} WhereIsSubsequence<T>(s: seq<T>, p: T -> bool)
    ensures IsSubsequence(Where(s, p), s)
  {
    if s != [] {
      WhereIsSubsequence(s[1..], p);
      if p(s[0]) {
        assert Where(s, p) == [s[0]] + Where(s[1..], p);
        assert Where(s, p)[1..] == Where(s[1..], p);
      } else {
        assert Where(s, p) == Where(s[1..], p);
        SubsequenceSkip(Where(s[1..], p), s);
      }
    }
  }

  /** Selecting twice by the same mask is selecting once. */
  lemma {:induction false} WhereIdempotent<T>(s: seq<T>, p: T -> bool)
    ensures Where(Where(s, p), p) == Where(s, p)
  {
    if s != [] {
      WhereIdempotent(s[1..], p);
      var w := Where(s[1..], p);
      if p(s[0]) {
        assert Where(s, p) == [s[0]] + w;
        assert ([s[0]] + w)[1..] == w;
        assert Where([s[0]] + w, p) == [s[0]] + Where(w, p);
      } else {
        assert Where(s, p) == w;
      }
    }
  }

  /** Nothing is selected exactly when no element satisfies the predicate. */
  lemma WhereEmptyIff<T>(s: seq<T>, p: T -> bool)
    ensures Where(s, p) == [] <==> forall i :: 0 <= i < |s| ==> !p(s[i])
  {
    var r := Where(s, p);
    if r != [] {
      var j :| 0 <= j < |s| && s[j] == r[0];
      assert p(s[j]);
    }
  }

  /** Dropping the head of `s` keeps a subsequence of its tail a subsequence of `s`. */
  lemma {:induction false} SubsequenceSkip<T>(r: seq<T>, s: seq<T>)
    requires s != [] && IsSubsequence(r, s[1..])
    ensures IsSubsequence(r, s)
    decreases |s|, 0
  {
    if r != [] && r[0] == s[0] {
      // r[1..] is a subsequence of s[1..] because r is one of s[1..]
      SubsequenceTail(r, s[1..]);
    }
  }

  lemma {:induction false} SubsequenceRefl<T>(s: seq<T>)
    ensures IsSubsequence(s, s)
  {
    if s != [] {
      SubsequenceRefl(s[1..]);
    }
  }

  /** Elements put in front of `s` keep a subsequence of `s` a subsequence. */
  lemma {:induction false} SubsequencePrefix<T>(r: seq<T>, p: seq<T>, s: seq<T>)
    requires IsSubsequence(r, s)
    ensures IsSubsequence(r, p + s)
    decreases |p|
  {
    if p != [] {
      SubsequencePrefix(r, p[1..], s);
      assert (p + s)[1..] == p[1..] + s;
      SubsequenceSkip(r, p + s);
    } else {
      assert p + s == s;
    }
  }

  /** A subsequence of `t` stays one, behind `x`, of any `h + t` that starts with `x`. */
  lemma SubsequenceCons<T>(x: T, r: seq<T>, h: seq<T>, t: seq<T>)
    requires h != [] && h[0] == x && IsSubsequence(r, t)
    ensures IsSubsequence([x] + r, h + t)
  {
    SubsequencePrefix(r, h[1..], t);
    assert ([x] + r)[1..] == r;
    assert (h + t)[1..] == h[1..] + t;
  }

  /** A subsequence of a subsequence of `c` is a subsequence of `c`. */
  lemma {:induction false} SubsequenceTrans<T>(a: seq<T>, b: seq<T>, c: seq<T>)
    requires IsSubsequence(a, b) && IsSubsequence(b, c)
    ensures IsSubsequence(a, c)
    decreases |c|
  {
    if a != [] {
      if b[0] == c[0] {
        if a[0] == b[0] {
          SubsequenceTrans(a[1..], b[1..], c[1..]);
        } else {
          SubsequenceTrans(a, b[1..], c[1..]);
          SubsequenceSkip(a, c);
        }
      } else {
        SubsequenceTrans(a, b, c[1..]);
        SubsequenceSkip(a, c);
      }
    }
  }

  lemma {:induction false} SubsequenceTail<T>(r: seq<T>, s: seq<T>)
    requires r != [] && IsSubsequence(r, s)
    ensures IsSubsequence(r[1..], s)
    decreases |s|, 1
  {
    if s != [] {
      if r[0] == s[0] {
        SubsequenceSkip(r[1..], s);
      } else {
        SubsequenceTail(r, s[1..]);
        SubsequenceSkip(r[1..], s);
      }
    }
  }

  /** Number of elements satisfying `p` (`mask.sum()`). */
  function CountWhere<T(==)>(s: seq<T>, p: T -> bool): (n: nat)
    ensures n == |Where(s, p)|
  {
    if s == [] then 0 else (if p(s[0]) then 1 else 0) + CountWhere(s[1..], p)
  }

  // --------------------------------------------------------------- group keys

  predicate StrictlySorted(ks: seq<string>) {
    forall i, j :: 0 <= i < j < |ks| ==> StrLess(ks[i], ks[j])
  }

  predicate Distinct<X(==)>(ks: seq<X>) {
    forall i, j :: 0 <= i < j < |ks| ==> ks[i] != ks[j]
  }

  lemma SortedDistinct(ks: seq<string>)
    requires StrictlySorted(ks)
    ensures Distinct(ks)
  {
    forall i, j | 0 <= i < j < |ks| ensures ks[i] != ks[j] {
      if ks[i] == ks[j] { StrLessIrreflexive(ks[i]); }
    }
  }

  /** Some row has key `k`. */
  predicate HasKey<T>(rows: seq<T>, key: T -> Option<string>, k: string) {
    exists i :: 0 <= i < |rows| && key(rows[i]) == Some(k)
  }

  /** Inserts `k` into an ascending, duplicate-free list of keys. */
  function InsertKey(ks: seq<string>, k: string): (r: seq<string>)
    requires StrictlySorted(ks)
    ensures StrictlySorted(r)
    ensures forall x :: x in r <==> x in ks || x == k
    decreases |ks|
  {
    if ks == [] then [k]
    else if ks[0] == k then ks
    else if StrLess(k, ks[0]) then
      BelowHead(ks, k);
      [k] + ks
    else
      StrLessTotal(k, ks[0]);
      var t := InsertKey(ks[1..], k);
      AboveHead(ks, k, t);
      [ks[0]] + t
  }

  lemma AboveHead(ks: seq<string>, k: string, t: seq<string>)
    requires StrictlySorted(ks) && ks != [] && StrLess(ks[0], k)
    requires StrictlySorted(t) && forall x :: x in t <==> x in ks[1..] || x == k
    ensures StrictlySorted([ks[0]] + t)
  {
    forall j | 0 <= j < |t| ensures StrLess(ks[0], t[j]) {
      assert t[j] in t;
      if t[j] != k {
        assert t[j] in ks[1..];
        var m :| 0 <= m < |ks[1..]| && ks[1..][m] == t[j];
        assert ks[m + 1] == t[j];
      }
    }
  }

  lemma BelowHead(ks: seq<string>, k: string)
    requires StrictlySorted(ks) && ks != [] && StrLess(k, ks[0])
    ensures StrictlySorted([k] + ks)
  {
    forall j | 0 <= j < |ks| ensures StrLess(k, ks[j]) {
      if j > 0 { StrLessTransitive(k, ks[0], ks[j]); }
    }
  }

  /**
   * The keys of `groupby(key)`: every non-null key once, in ascending order.
   */
  function KeysOf<T>(rows: seq<T>, key: T -> Option<string>): (ks: seq<string>)
    ensures StrictlySorted(ks)
    ensures forall k :: k in ks <==> HasKey(rows, key, k)
  {
    if rows == [] then []
    else
      var rest := KeysOf(rows[1..], key);
      assert forall k :: HasKey(rows, key, k) <==> key(rows[0]) == Some(k) || HasKey(rows[1..], key, k) by {
        forall k ensures HasKey(rows, key, k) ==> key(rows[0]) == Some(k) || HasKey(rows[1..], key, k) {
          if HasKey(rows, key, k) && key(rows[0]) != Some(k) {
            var i :| 0 <= i < |rows| && key(rows[i]) == Some(k);
            assert key(rows[1..][i - 1]) == Some(k);
          }
        }
        forall k ensures HasKey(rows[1..], key, k) ==> HasKey(rows, key, k) {
          if HasKey(rows[1..], key, k) {
            var i :| 0 <= i < |rows[1..]| && key(rows[1..][i]) == Some(k);
            assert key(rows[i + 1]) == Some(k);
          }
        }
      }
      match key(rows[0])
      case None => rest
      case Some(k) => InsertKey(rest, k)
  }

  /** The rows of the group with key `k`, in their original order. */
  function Group<T(==)>(rows: seq<T>, key: T -> Option<string>, k: string): (g: seq<T>)
    ensures |g| <= |rows|
    ensures forall i :: 0 <= i < |g| ==> g[i] in rows && key(g[i]) == Some(k)
    ensures forall i :: 0 <= i < |rows| && key(rows[i]) == Some(k) ==> rows[i] in g
  {
    if rows == [] then []
    else (if key(rows[0]) == Some(k) then [rows[0]] else []) + Group(rows[1..], key, k)
  }

  /** A key no row carries has an empty group. */
  lemma {:induction false} GroupAbsent<T>(rows: seq<T>, key: T -> Option<string>, k: string)
    requires !HasKey(rows, key, k)
    ensures Group(rows, key, k) == []
  {
    if rows != [] {
      assert key(rows[0]) != Some(k);
      assert !HasKey(rows[1..], key, k) by {
        forall i | 0 <= i < |rows[1..]| ensures key(rows[1..][i]) != Some(k) {
          assert rows[1..][i] == rows[i + 1];
        }
      }
      GroupAbsent(rows[1..], key, k);
    }
  }

  /** Number of rows whose key is not null. */
  function CountKeyed<T>(rows: seq<T>, key: T -> Option<string>): (n: nat)
    ensures n <= |rows|
  {
    if rows == [] then 0 else (if key(rows[0]).Some? then 1 else 0) + CountKeyed(rows[1..], key)
  }

  /** Total size of the groups named by `ks`. */
  function GroupSizes<T(==)>(rows: seq<T>, key: T -> Option<string>, ks: seq<string>): nat {
    if ks == [] then 0 else |Group(rows, key, ks[0])| + GroupSizes(rows, key, ks[1..])
  }

  /** How many entries of `ks` equal `k`. */
  function Occurrences(ks: seq<string>, k: string): nat {
    if ks == [] then 0 else (if ks[0] == k then 1 else 0) + Occurrences(ks[1..], k)
  }

  lemma {:induction false} OccurrencesDistinct(ks: seq<string>, k: string)
    requires Distinct(ks)
    ensures Occurrences(ks, k) == if k in ks then 1 else 0
  {
    if ks != [] {
      assert Distinct(ks[1..]) by {
        forall i, j | 0 <= i < j < |ks[1..]| ensures ks[1..][i] != ks[1..][j] {
          assert ks[1..][i] == ks[i + 1] && ks[1..][j] == ks[j + 1];
        }
      }
      OccurrencesDistinct(ks[1..], k);
      if ks[0] == k {
        assert k !in ks[1..] by {
          forall j | 0 <= j < |ks[1..]| ensures ks[1..][j] != k {
            assert ks[1..][j] == ks[j + 1];
          }
        }
      }
    }
  }

  /** Peeling the first row off every group. */
  lemma {:induction false} GroupSizesStep<T>(rows: seq<T>, key: T -> Option<string>, ks: seq<string>)
    requires rows != []
    ensures GroupSizes(rows, key, ks) ==
      GroupSizes(rows[1..], key, ks) + (if key(rows[0]).Some? then Occurrences(ks, key(rows[0]).value) else 0)
  {
    if ks != [] {
      GroupSizesStep(rows, key, ks[1..]);
    }
  }

  /**
   * Group sizes add up to the number of rows with a non-null key: `groupby`
   * neither loses nor duplicates a keyed row, and drops exactly the null-keyed ones.
   */
  lemma {:induction false} GroupSizesTotal<T>(rows: seq<T>, key: T -> Option<string>)
    ensures GroupSizes(rows, key, KeysOf(rows, key)) == CountKeyed(rows, key)
  {
    var ks := KeysOf(rows, key);
    SortedDistinct(ks);
    CoveredGroupSizes(rows, key, ks);
  }

  lemma {:induction false} CoveredGroupSizes<T>(rows: seq<T>, key: T -> Option<string>, ks: seq<string>)
    requires Distinct(ks)
    requires forall i :: 0 <= i < |rows| && key(rows[i]).Some? ==> key(rows[i]).value in ks
    ensures GroupSizes(rows, key, ks) == CountKeyed(rows, key)
  {
    if rows == [] {
      EmptyGroupSizes(key, ks);
    } else {
      GroupSizesStep(rows, key, ks);
      assert forall i :: 0 <= i < |rows[1..]| ==> rows[1..][i] == rows[i + 1];
      CoveredGroupSizes(rows[1..], key, ks);
      if key(rows[0]).Some? {
        OccurrencesDistinct(ks, key(rows[0]).value);
      }
    }
  }

  lemma {:induction false} EmptyGroupSizes<T>(key: T -> Option<string>, ks: seq<string>)
    ensures GroupSizes([], key, ks) == 0
  {
    if ks != [] { EmptyGroupSizes(key, ks[1..]); }
  }

  // ------------------------------------------------------------------ sorting

  /** `s` is ordered by `score`, largest first. */
  predicate NonIncreasing<T>(s: seq<T>, score: T -> int) {
    forall i, j :: 0 <= i < j < |s| ==> score(s[i]) >= score(s[j])
  }

  /** Inserts `x` after every element scoring at least as much (keeps ties in order). */
  function InsertDesc<T>(s: seq<T>, x: T, score: T -> int): (r: seq<T>)
    requires NonIncreasing(s, score)
    ensures NonIncreasing(r, score)
    ensures multiset(r) == multiset(s) + multiset{x}
  {
    if s == [] then [x]
    else if score(s[0]) >= score(x) then
      var t := InsertDesc(s[1..], x, score);
      assert s == [s[0]] + s[1..];
      BoundedMembers(t, s[1..], x, score, score(s[0]));
      PrependNonIncreasing(s[0], t, score);
      [s[0]] + t
    else
      [x] + s
  }

  /** A permutation of bounded elements plus a bounded `x` is bounded. */
  lemma BoundedMembers<T>(r: seq<T>, s: seq<T>, x: T, score: T -> int, b: int)
    requires multiset(r) == multiset(s) + multiset{x}
    requires (forall j :: 0 <= j < |s| ==> score(s[j]) <= b) && score(x) <= b
    ensures forall j :: 0 <= j < |r| ==> score(r[j]) <= b
  {
    forall j | 0 <= j < |r| ensures score(r[j]) <= b {
      assert r[j] in multiset(r);
      if r[j] != x {
        assert r[j] in multiset(s);
        var k :| 0 <= k < |s| && s[k] == r[j];
      }
    }
  }

  lemma PrependNonIncreasing<T>(y: T, t: seq<T>, score: T -> int)
    requires NonIncreasing(t, score) && forall j :: 0 <= j < |t| ==> score(t[j]) <= score(y)
    ensures NonIncreasing([y] + t, score)
  {
    var r := [y] + t;
    forall i, j | 0 <= i < j < |r| ensures score(r[i]) >= score(r[j]) {
      assert r[j] == t[j - 1];
      if i > 0 {
        assert r[i] == t[i - 1];
      }
    }
  }

  /** `sort_values(score, ascending=False)` with a stable sort. */
  function SortDesc<T>(s: seq<T>, score: T -> int): (r: seq<T>)
    ensures NonIncreasing(r, score)
    ensures multiset(r) == multiset(s)
    ensures |r| == |s|
  {
    if s == [] then []
    else
      var init := s[..|s| - 1];
      assert s == init + [s[|s| - 1]];
      var r := InsertDesc(SortDesc(init, score), s[|s| - 1], score);
      assert |r| == |multiset(r)|;
      r
  }

  /** Sorting only reorders: every sorted element comes from the input. */
  lemma SortDescFrom<T>(s: seq<T>, score: T -> int, i: nat)
    requires i < |SortDesc(s, score)|
    ensures SortDesc(s, score)[i] in s
  {
    assert SortDesc(s, score)[i] in multiset(SortDesc(s, score));
  }

  /** Sorting a table whose entries carry the keys `ks` keeps an entry for each key and no other. */
  lemma SortDescKeys<T>(s: seq<T>, score: T -> int, key: T -> string, ks: seq<string>)
    requires |s| == |ks| && forall j :: 0 <= j < |ks| ==> key(s[j]) == ks[j]
    ensures forall i :: 0 <= i < |SortDesc(s, score)| ==> key(SortDesc(s, score)[i]) in ks
    ensures forall k :: k in ks ==> exists i :: 0 <= i < |SortDesc(s, score)| && key(SortDesc(s, score)[i]) == k
  {
    var r := SortDesc(s, score);
    forall i | 0 <= i < |r| ensures key(r[i]) in ks {
      SortDescFrom(s, score, i);
      var j :| 0 <= j < |s| && s[j] == r[i];
      assert ks[j] == key(r[i]);
    }
    forall k | k in ks ensures exists i :: 0 <= i < |r| && key(r[i]) == k {
      var j :| 0 <= j < |ks| && ks[j] == k;
      assert s[j] in multiset(s);
      assert s[j] in multiset(r);
      var i :| 0 <= i < |r| && r[i] == s[j];
      assert key(r[i]) == k;
    }
  }

  /** Sum of `g` over `s`. */
  function SumBy<T>(s: seq<T>, g: T -> int): int {
    if s == [] then 0 else g(s[0]) + SumBy(s[1..], g)
  }

  lemma {:induction false} SumByInsert<T>(s: seq<T>, x: T, score: T -> int, g: T -> int)
    requires NonIncreasing(s, score)
    ensures SumBy(InsertDesc(s, x, score), g) == SumBy(s, g) + g(x)
  {
    if s != [] && score(s[0]) >= score(x) {
      SumByInsert(s[1..], x, score, g);
    }
  }

  lemma {:induction false} SumByAppend<T>(a: seq<T>, b: seq<T>, g: T -> int)
    ensures SumBy(a + b, g) == SumBy(a, g) + SumBy(b, g)
  {
    if a != [] {
      assert (a + b)[1..] == a[1..] + b;
      SumByAppend(a[1..], b, g);
    } else {
      assert a + b == b;
    }
  }

  /** Sorting changes no column total. */
  lemma {:induction false} SumBySortDesc<T>(s: seq<T>, score: T -> int, g: T -> int)
    ensures SumBy(SortDesc(s, score), g) == SumBy(s, g)
  {
    if s != [] {
      var init := s[..|s| - 1];
      assert s == init + [s[|s| - 1]];
      SumBySortDesc(init, score, g);
      SumByInsert(SortDesc(init, score), s[|s| - 1], score, g);
      SumByAppend(init, [s[|s| - 1]], g);
    }
  }

  /** Python's `max(s, key=score)`: the first element of greatest score. */
  function FirstMax<T>(s: seq<T>, score: T -> int): (i: nat)
    requires s != []
    ensures i < |s|
    ensures forall j :: 0 <= j < |s| ==> score(s[j]) <= score(s[i])
    ensures forall j :: 0 <= j < i ==> score(s[j]) < score(s[i])
  {
    if |s| == 1 then 0
    else
      var k := FirstMax(s[1..], score) + 1;
      assert forall j :: 1 <= j < |s| ==> s[j] == s[1..][j - 1];
      if score(s[k]) > score(s[0]) then k else 0
  }

  /** On a sequence sorted largest first, `max` picks the head. */
  lemma FirstMaxOfSorted<T>(s: seq<T>, score: T -> int)
    requires s != [] && NonIncreasing(s, score)
    ensures FirstMax(s, score) == 0
  {
    if |s| > 1 {
      var k := FirstMax(s[1..], score) + 1;
      assert s[k] == s[1..][k - 1];
      assert score(s[k]) <= score(s[0]);
    }
  }

  /** `head(n)`. */
  function Take<T>(s: seq<T>, n: nat): (r: seq<T>)
    ensures |r| == if n < |s| then n else |s|
    ensures n >= |s| ==> r == s
    ensures forall i :: 0 <= i < |r| ==> r[i] == s[i]
  {
    if n >= |s| then s else s[..n]
  }

  lemma TakeNonIncreasing<T>(s: seq<T>, n: nat, score: T -> int)
    requires NonIncreasing(s, score)
    ensures NonIncreasing(Take(s, n), score)
  {
  }
}
