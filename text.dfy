/**
 * String operations the analyzer uses: ASCII case folding, substring search
 * (Python's `in` and pandas `str.contains` without metacharacters), code-point
 * ordering (Python's `<` on str, the order of group keys), `str.join` and `str.strip`.
 */
module Text {

  /** Python `str.lower()` restricted to ASCII letters. */
  function LowerChar(c: char): char {
    if 'A' <= c <= 'Z' then (c as int + 32) as char else c
  }

  function Lower(s: string): (r: string)
    ensures |r| == |s|
    ensures forall i :: 0 <= i < |s| ==> r[i] == LowerChar(s[i])
  {
    if s == [] then [] else [LowerChar(s[0])] + Lower(s[1..])
  }

  /** `Lower` character by character, for strings given in full. */
  lemma LowerIs(s: string, t: string)
    requires |s| == |t| && forall i :: 0 <= i < |s| ==> LowerChar(s[i]) == t[i]
    ensures Lower(s) == t
  {
  }

  lemma {:induction false} LowerIdempotent(s: string)
    ensures Lower(Lower(s)) == Lower(s)
  {
    var l := Lower(s);
    assert forall i :: 0 <= i < |l| ==> Lower(l)[i] == l[i];
  }

  /** `t in s` for Python strings: `t` occurs in `s` at some position. */
  predicate Contains(s: string, t: string) {
    exists i :: 0 <= i <= |s| && OccursAt(s, t, i)
  }

  /** `t` occurs in `s` starting at index `i`. */
  predicate OccursAt(s: string, t: string, i: nat) {
    i + |t| <= |s| && s[i..i + |t|] == t
  }

  /** Case-insensitive substring test (`str.contains(t, case=False)`). */
  predicate ContainsIgnoreCase(s: string, t: string) {
    Contains(Lower(s), Lower(t))
  }

  /** Some word of `words` occurs in `s`, as in `any(w in s for w in words)`. */
  predicate ContainsAny(s: string, words: seq<string>) {
    exists j :: 0 <= j < |words| && Contains(s, words[j])
  }

  /** Left-to-right search for `t` from position `i` on: the executable form of `Contains`. */
  predicate OccursFrom(s: string, t: string, i: nat)
    decreases |s| - i
  {
    if i + |t| > |s| then false
    else s[i..i + |t|] == t || OccursFrom(s, t, i + 1)
  }

  lemma {:induction false} OccursFromSpec(s: string, t: string, i: nat)
    ensures OccursFrom(s, t, i) <==> exists j :: i <= j <= |s| && OccursAt(s, t, j)
    decreases |s| - i
  {
    if i + |t| <= |s| {
      OccursFromSpec(s, t, i + 1);
      if s[i..i + |t|] == t {
        assert OccursAt(s, t, i);
      }
      if exists j :: i <= j <= |s| && OccursAt(s, t, j) {
        var j :| i <= j <= |s| && OccursAt(s, t, j);
        assert j == i || (i + 1 <= j <= |s| && OccursAt(s, t, j));
      }
    }
  }

  /** The search from the start decides `Contains`. */
  lemma ContainsBySearch(s: string, t: string)
    ensures Contains(s, t) <==> OccursFrom(s, t, 0)
  {
    OccursFromSpec(s, t, 0);
  }

  /** `c` occurs in `s` at `i` or later: a search that evaluates on literals. */
  predicate HasCharFrom(s: string, c: char, i: nat)
    decreases |s| - i
  {
    i < |s| && (s[i] == c || HasCharFrom(s, c, i + 1))
  }

  lemma {:induction false} LacksChar(s: string, c: char, i: nat)
    requires !HasCharFrom(s, c, i)
    ensures forall j :: i <= j < |s| ==> s[j] != c
    decreases |s| - i
  {
    if i < |s| {
      LacksChar(s, c, i + 1);
    }
  }

  /** A pattern with a character that `s` lacks does not occur in `s`. */
  lemma MissingCharNotContained(s: string, t: string, k: nat)
    requires k < |t| && !HasCharFrom(s, t[k], 0)
    ensures !Contains(s, t)
  {
    LacksChar(s, t[k], 0);
    forall i | 0 <= i <= |s| ensures !OccursAt(s, t, i) {
      if i + |t| <= |s| {
        assert s[i..i + |t|][k] == s[i + k];
      }
    }
  }

  lemma ContainsAt(s: string, t: string, i: nat)
    requires OccursAt(s, t, i)
    ensures Contains(s, t)
  {
  }

  lemma {:induction false} EmptyContained(s: string)
    ensures Contains(s, "")
  {
    assert OccursAt(s, "", 0);
  }

  /** Python's ordering of strings: lexicographic on code points. */
  predicate StrLess(a: string, b: string)
    decreases |a|
  {
    if |a| == 0 then |b| > 0
    else if |b| == 0 then false
    else a[0] < b[0] || (a[0] == b[0] && StrLess(a[1..], b[1..]))
  }

  lemma {:induction false} StrLessIrreflexive(a: string)
    ensures !StrLess(a, a)
    decreases |a|
  {
    if |a| > 0 { StrLessIrreflexive(a[1..]); }
  }

  lemma {:induction false} StrLessTransitive(a: string, b: string, c: string)
    requires StrLess(a, b) && StrLess(b, c)
    ensures StrLess(a, c)
    decreases |a|
  {
    if |a| > 0 && |b| > 0 && |c| > 0 && a[0] == b[0] && b[0] == c[0] {
      StrLessTransitive(a[1..], b[1..], c[1..]);
    }
  }

  lemma {:induction false} StrLessTotal(a: string, b: string)
    requires a != b
    ensures StrLess(a, b) || StrLess(b, a)
    decreases |a|
  {
    if |a| > 0 && |b| > 0 && a[0] == b[0] {
      assert a == [a[0]] + a[1..] && b == [b[0]] + b[1..];
      StrLessTotal(a[1..], b[1..]);
    }
  }

  /** `sep.join(xs)`. */
  function Join(sep: string, xs: seq<string>): (r: string)
    ensures |xs| == 1 ==> r == xs[0]
    ensures xs == [] ==> r == ""
  {
    if xs == [] then ""
    else if |xs| == 1 then xs[0]
    else xs[0] + sep + Join(sep, xs[1..])
  }

  /** Joining one more string adds the separator and that string at the end. */
  lemma {:induction false} JoinSnoc(sep: string, xs: seq<string>, x: string)
    requires xs != []
    ensures Join(sep, xs + [x]) == Join(sep, xs) + sep + x
    decreases |xs|
  {
    assert (xs + [x])[0] == xs[0];
    if |xs| == 1 {
      assert (xs + [x])[1..] == [x];
    } else {
      assert (xs + [x])[1..] == xs[1..] + [x];
      JoinSnoc(sep, xs[1..], x);
    }
  }

  /** The total length of a list of strings. */
  function TotalLength(xs: seq<string>): nat {
    if xs == [] then 0 else |xs[0]| + TotalLength(xs[1..])
  }

  /** `sep.join(xs)` holds every string of `xs` and one separator between each two. */
  lemma {:induction false} JoinLength(sep: string, xs: seq<string>)
    requires xs != []
    ensures |Join(sep, xs)| == TotalLength(xs) + (|xs| - 1) * |sep|
    decreases |xs|
  {
    if |xs| > 1 {
      JoinLength(sep, xs[1..]);
      assert (|xs| - 1) * |sep| == (|xs[1..]| - 1) * |sep| + |sep|;
    }
  }

  /**
   * The characters `str.strip()` and `\s` treat as white space: those for
   * which `str.isspace()` holds.
   */
  predicate IsSpace(c: char) {
    || '\t' <= c <= '\r'
    || '\U{1C}' <= c <= ' '
    || c == '\U{85}' || c == '\U{A0}' || c == '\U{1680}'
    || '\U{2000}' <= c <= '\U{200A}'
    || c == '\U{2028}' || c == '\U{2029}' || c == '\U{202F}' || c == '\U{205F}' || c == '\U{3000}'
  }

  predicate IsLowerLetter(c: char) {
    'a' <= c <= 'z'
  }

  predicate IsDigit(c: char) {
    '0' <= c <= '9'
  }

  /** `str.strip()`: removes white space at both ends. */
  function Strip(s: string): (r: string)
    ensures |r| <= |s|
    ensures r != [] ==> !IsSpace(r[0]) && !IsSpace(r[|r| - 1])
    ensures s != [] && !IsSpace(s[0]) && !IsSpace(s[|s| - 1]) ==> r == s
    decreases |s|
  {
    if s == [] then s
    else if IsSpace(s[0]) then Strip(s[1..])
    else if IsSpace(s[|s| - 1]) then Strip(s[..|s| - 1])
    else s
  }

  /** Only white space lies outside `s[i..j]`. */
  predicate SpaceOutside(s: string, i: int, j: int) {
    && 0 <= i <= j <= |s|
    && (forall k :: 0 <= k < i ==> IsSpace(s[k]))
    && (forall k :: j <= k < |s| ==> IsSpace(s[k]))
  }

  /**
   * `Strip` removes a prefix and a suffix of white space and nothing else:
   * the result is a slice of `s` with only white space outside it.
   */
  lemma StripTrims(s: string)
    ensures exists i, j :: SpaceOutside(s, i, j) && Strip(s) == s[i..j]
  {
    var i, j := StripBounds(s);
  }

  /** Where `Strip(s)` starts and ends in `s`. */
  lemma {:induction false} StripBounds(s: string) returns (i: int, j: int)
    ensures SpaceOutside(s, i, j) && Strip(s) == s[i..j]
    decreases |s|
  {
    if s == [] {
      i, j := 0, 0;
    } else if IsSpace(s[0]) {
      var i', j' := StripBounds(s[1..]);
      i, j := i' + 1, j' + 1;
      SpaceOutsideFront(s, i', j');
    } else if IsSpace(s[|s| - 1]) {
      i, j := StripBounds(s[..|s| - 1]);
      SpaceOutsideBack(s, i, j);
    } else {
      i, j := 0, |s|;
    }
  }

  lemma SpaceOutsideFront(s: string, i: int, j: int)
    requires s != [] && IsSpace(s[0]) && SpaceOutside(s[1..], i, j)
    ensures SpaceOutside(s, i + 1, j + 1) && s[1..][i..j] == s[i + 1..j + 1]
  {
    forall k | 0 < k < i + 1 ensures IsSpace(s[k]) {
      assert s[k] == s[1..][k - 1];
    }
    forall k | j + 1 <= k < |s| ensures IsSpace(s[k]) {
      assert s[k] == s[1..][k - 1];
    }
  }

  lemma SpaceOutsideBack(s: string, i: int, j: int)
    requires s != [] && IsSpace(s[|s| - 1]) && SpaceOutside(s[..|s| - 1], i, j)
    ensures SpaceOutside(s, i, j) && s[..|s| - 1][i..j] == s[i..j]
  {
    forall k | 0 <= k < i ensures IsSpace(s[k]) {
      assert s[k] == s[..|s| - 1][k];
    }
    forall k | j <= k < |s| - 1 ensures IsSpace(s[k]) {
      assert s[k] == s[..|s| - 1][k];
    }
  }

  /** Stripping a stripped string changes nothing. */
  lemma StripIdempotent(s: string)
    ensures Strip(Strip(s)) == Strip(s)
  {
  }

  /** Case folding keeps white space and non-white space apart, so it commutes with `Strip`. */
  lemma {:induction false} LowerStrip(s: string)
    ensures Lower(Strip(s)) == Strip(Lower(s))
    decreases |s|
  {
    if s != [] {
      if IsSpace(s[0]) {
        LowerStrip(s[1..]);
        StripLowerFront(s);
      } else if IsSpace(s[|s| - 1]) {
        LowerStrip(s[..|s| - 1]);
        StripLowerBack(s);
      } else {
        StripLowerNone(s);
      }
    }
  }

  lemma StripLowerFront(s: string)
    requires s != [] && IsSpace(s[0])
    ensures Strip(Lower(s)) == Strip(Lower(s[1..]))
  {
    var l := Lower(s);
    SpaceLower(s[0]);
    assert l[1..] == Lower(s[1..]);
  }

  lemma StripLowerBack(s: string)
    requires s != [] && !IsSpace(s[0]) && IsSpace(s[|s| - 1])
    ensures Strip(Lower(s)) == Strip(Lower(s[..|s| - 1]))
  {
    var l := Lower(s);
    SpaceLower(s[0]);
    SpaceLower(s[|s| - 1]);
    assert l[..|s| - 1] == Lower(s[..|s| - 1]);
  }

  lemma StripLowerNone(s: string)
    requires s != [] && !IsSpace(s[0]) && !IsSpace(s[|s| - 1])
    ensures Strip(Lower(s)) == Lower(s)
  {
    SpaceLower(s[0]);
    SpaceLower(s[|s| - 1]);
  }

  lemma SpaceLower(c: char)
    ensures IsSpace(LowerChar(c)) <==> IsSpace(c)
  {
  }
}
