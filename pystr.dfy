/**
 * The few Python string operations the dashboard relies on, with Python's
 * semantics: `str.zfill`, `str.split` on a one-character separator,
 * `str.strip()` with no argument, `<` on strings, and `sorted(set(xs))`.
 */
module PyStr {

  /**
   * The characters for which Python's `str.isspace()` is true.
   */
  predicate IsSpace(c: char)
  {
    || c == ' '
    || ('\t' <= c <= '\r')
    || ('\U{1c}' <= c <= '\U{1f}')
    || c == '\U{85}' || c == '\U{a0}' || c == '\U{1680}'
    || ('\U{2000}' <= c <= '\U{200a}')
    || c == '\U{2028}' || c == '\U{2029}' || c == '\U{202f}' || c == '\U{205f}'
    || c == '\U{3000}'
  }

  predicate IsSign(c: char)
  {
    c == '+' || c == '-'
  }

  // ---------------------------------------------------------------------------
  // str.zfill

  function Zeros(n: nat): (r: string)
    ensures |r| == n
    ensures forall i :: 0 <= i < n ==> r[i] == '0'
  {
    if n == 0 then "" else Zeros(n - 1) + "0"
  }

  /**
   * `s.zfill(width)`: a string shorter than `width` is padded on the left with
   * '0' up to `width`; a leading '+' or '-' stays in front of the padding.
   * A string of `width` characters or more is returned as it is.
   */
  function ZFill(s: string, width: nat): (r: string)
    ensures |r| == if |s| >= width then |s| else width
    ensures |s| >= width ==> r == s
    ensures |s| < width && (s == [] || !IsSign(s[0])) ==>
              r[width - |s|..] == s && forall i :: 0 <= i < width - |s| ==> r[i] == '0'
    ensures |s| < width && s != [] && IsSign(s[0]) ==>
              r[0] == s[0] && r[width - |s| + 1..] == s[1..] &&
              forall i :: 1 <= i <= width - |s| ==> r[i] == '0'
  {
    if |s| >= width then s
    else if s != [] && IsSign(s[0]) then [s[0]] + Zeros(width - |s|) + s[1..]
    else Zeros(width - |s|) + s
  }

  // ---------------------------------------------------------------------------
  // str.split(sep) for a one-character separator, and its inverse sep.join

  /**
   * `s.split(sep)`: the pieces of `s` between occurrences of `sep`. There is
   * always at least one piece, and no piece contains `sep`.
   */
  function Split(s: string, sep: char): (parts: seq<string>)
    ensures |parts| >= 1
    ensures forall i :: 0 <= i < |parts| ==> sep !in parts[i]
  {
    if s == [] then [""]
    else
      var rest := Split(s[1..], sep);
      if s[0] == sep then [""] + rest
      else [[s[0]] + rest[0]] + rest[1..]
  }

  /** `sep.join(parts)`: the first piece, then the separator and the join of the rest. */
  function Join(parts: seq<string>, sep: char): (r: string)
    requires |parts| >= 1
    ensures |parts[0]| <= |r| && r[..|parts[0]|] == parts[0]
    ensures |parts| == 1 ==> r == parts[0]
    ensures |parts| > 1 ==> |r| > |parts[0]| && r[|parts[0]|] == sep
  {
    if |parts| == 1 then parts[0] else parts[0] + [sep] + Join(parts[1..], sep)
  }

  /** Joining the pieces of a split with the same separator gives the string back. */
  lemma {:induction false} JoinSplit(s: string, sep: char)
    ensures Join(Split(s, sep), sep) == s
  {
    if s != [] {
      var rest := Split(s[1..], sep);
      JoinSplit(s[1..], sep);
      var parts := Split(s, sep);
      if s[0] == sep {
        assert parts == [""] + rest;
        assert parts[1..] == rest;
      } else {
        assert parts == [[s[0]] + rest[0]] + rest[1..];
        if |rest| > 1 {
          assert parts[1..] == rest[1..];
          assert Join(rest, sep) == rest[0] + [sep] + Join(rest[1..], sep);
        }
      }
    }
  }

  /** A string without the separator splits into itself alone. */
  lemma {:induction false} SplitWithoutSeparator(s: string, sep: char)
    requires sep !in s
    ensures Split(s, sep) == [s]
  {
    if s != [] {
      assert s[1..] == s[1..] && sep !in s[1..] by {
        forall c | c in s[1..] ensures c in s { }
      }
      SplitWithoutSeparator(s[1..], sep);
      assert [s[0]] + s[1..] == s;
    }
  }

  /** The first piece ends at the first separator; the rest is the split of what follows it. */
  lemma {:induction false} SplitAtFirstSeparator(a: string, b: string, sep: char)
    requires sep !in a
    ensures Split(a + [sep] + b, sep) == [a] + Split(b, sep)
  {
    var s := a + [sep] + b;
    if a == [] {
      assert s[0] == sep && s[1..] == b;
    } else {
      assert s[0] == a[0] && s[1..] == a[1..] + [sep] + b;
      assert sep !in a[1..] by {
        forall c | c in a[1..] ensures c in a { }
      }
      SplitAtFirstSeparator(a[1..], b, sep);
      assert [a[0]] + a[1..] == a;
    }
  }

  /** A split yields more than one piece exactly when the separator occurs. */
  lemma SplitHasSeveralPieces(s: string, sep: char)
    ensures |Split(s, sep)| >= 2 <==> sep in s
  {
    if sep in s {
      if |Split(s, sep)| == 1 {
        JoinSplit(s, sep);
      }
    } else {
      SplitWithoutSeparator(s, sep);
    }
  }

  // ---------------------------------------------------------------------------
  // str.strip()

  predicate HasSurroundingSpace(s: string)
  {
    s != [] && (IsSpace(s[0]) || IsSpace(s[|s| - 1]))
  }

  /** `s.lstrip()`: the suffix of `s` after its leading whitespace. */
  function StripLeading(s: string): (r: string)
    ensures |r| <= |s| && r == s[|s| - |r|..]
    ensures forall i :: 0 <= i < |s| - |r| ==> IsSpace(s[i])
    ensures r == [] || !IsSpace(r[0])
    ensures forall c :: !IsSpace(c) ==> (c in r <==> c in s)
  {
    if s != [] && IsSpace(s[0]) then
      var r := StripLeading(s[1..]);
      LeadingStep(s, r);
      r
    else s
  }

  /** Dropping one leading whitespace character keeps what StripLeading promises. */
  lemma LeadingStep(s: string, r: string)
    requires s != [] && IsSpace(s[0])
    requires |r| <= |s| - 1 && r == s[1..][|s| - 1 - |r|..]
    requires forall i :: 0 <= i < |s| - 1 - |r| ==> IsSpace(s[1..][i])
    requires forall c :: !IsSpace(c) ==> (c in r <==> c in s[1..])
    ensures r == s[|s| - |r|..]
    ensures forall i :: 0 <= i < |s| - |r| ==> IsSpace(s[i])
    ensures forall c :: !IsSpace(c) ==> (c in r <==> c in s)
  {
    assert s == [s[0]] + s[1..];
    assert forall i :: 1 <= i < |s| - |r| ==> s[i] == s[1..][i - 1];
  }

  function StripTrailing(s: string): (r: string)
    ensures |r| <= |s| && r == s[..|r|]
    ensures forall i :: |r| <= i < |s| ==> IsSpace(s[i])
    ensures r == [] || !IsSpace(r[|r| - 1])
    ensures forall c :: !IsSpace(c) ==> (c in r <==> c in s)
  {
    if s != [] && IsSpace(s[|s| - 1]) then
      var r := StripTrailing(s[..|s| - 1]);
      assert s == s[..|s| - 1] + [s[|s| - 1]];
      assert s[..|r|] == s[..|s| - 1][..|r|];
      assert forall i :: |r| <= i < |s| - 1 ==> s[i] == s[..|s| - 1][i];
      r
    else s
  }

  /**
   * `s.strip()`: the untouched middle `s[i..j]` of `s`, everything before `i`
   * and from `j` on being whitespace, with no whitespace left at either end.
   * It keeps every character of `s` that is not whitespace, and is `s` itself
   * when `s` has no whitespace at either end. By StripUnique no other string
   * has these properties.
   */
  function Strip(s: string): (r: string)
    ensures exists i, j :: 0 <= i <= j <= |s| && r == s[i..j] && StrippedAround(s, i, j)
    ensures !HasSurroundingSpace(r)
    ensures forall c :: !IsSpace(c) ==> (c in r <==> c in s)
    ensures !HasSurroundingSpace(s) ==> r == s
  {
    var t := StripLeading(s);
    var r := StripTrailing(t);
    assert r != [] ==> r[0] == t[0];
    StripMiddle(s, t, r);
    r
  }

  /** Everything of `s` before `i` and from `j` on is whitespace. */
  predicate StrippedAround(s: string, i: int, j: int)
    requires 0 <= i <= j <= |s|
  {
    (forall k :: 0 <= k < i ==> IsSpace(s[k])) && forall k :: j <= k < |s| ==> IsSpace(s[k])
  }

  /** Stripping the front and then the back leaves a middle of `s` with only whitespace around it. */
  lemma StripMiddle(s: string, t: string, r: string)
    requires |t| <= |s| && t == s[|s| - |t|..] && forall k :: 0 <= k < |s| - |t| ==> IsSpace(s[k])
    requires |r| <= |t| && r == t[..|r|] && forall k :: |r| <= k < |t| ==> IsSpace(t[k])
    ensures 0 <= |s| - |t| <= |s| - |t| + |r| <= |s|
    ensures r == s[|s| - |t|..|s| - |t| + |r|] && StrippedAround(s, |s| - |t|, |s| - |t| + |r|)
  {
    var i := |s| - |t|;
    forall k | i + |r| <= k < |s| ensures IsSpace(s[k]) {
      assert s[k] == t[k - i];
    }
  }

  /** The first and the last character of a non-empty string without outer whitespace are no whitespace. */
  lemma KeptEnds(s: string, i: int, j: int)
    requires 0 <= i < j <= |s| && !HasSurroundingSpace(s[i..j])
    ensures !IsSpace(s[i]) && !IsSpace(s[j - 1])
  {
    assert s[i..j][0] == s[i] && s[i..j][j - i - 1] == s[j - 1];
  }

  /** A middle of `s` with only whitespace around it and none at its ends is `s.strip()`. */
  lemma StripUnique(s: string, i: int, j: int)
    requires 0 <= i <= j <= |s| && StrippedAround(s, i, j)
    requires !HasSurroundingSpace(s[i..j])
    ensures s[i..j] == Strip(s)
  {
    var r := Strip(s);
    var i', j' :| 0 <= i' <= j' <= |s| && r == s[i'..j'] && StrippedAround(s, i', j');
    MiddleUnique(s, i, j, i', j');
  }

  /** Two such middles of one string are the same. */
  lemma MiddleUnique(s: string, i: int, j: int, i': int, j': int)
    requires 0 <= i <= j <= |s| && StrippedAround(s, i, j) && !HasSurroundingSpace(s[i..j])
    requires 0 <= i' <= j' <= |s| && StrippedAround(s, i', j') && !HasSurroundingSpace(s[i'..j'])
    ensures s[i..j] == s[i'..j']
  {
    if i < j {
      // the first and the last kept character are no whitespace, so they lie
      // inside the other middle, which is therefore not empty either
      KeptEnds(s, i, j);
      assert i' <= i < j' && i' <= j - 1 < j';
      KeptEnds(s, i', j');
      assert i <= i' && j' - 1 < j;
    } else if i' < j' {
      // all of s is whitespace, so nothing can be kept
      KeptEnds(s, i', j');
    }
  }

  // ---------------------------------------------------------------------------
  // Python's ordering of str, and sorted(set(xs))

  /**
   * `a < b` on Python strings: lexicographic by code point, a proper prefix
   * first (LexLessFirstDifference restates it without recursion).
   */
  predicate LexLess(a: string, b: string)
  {
    if a == [] then b != []
    else if b == [] then false
    else if a[0] != b[0] then a[0] < b[0]
    else LexLess(a[1..], b[1..])
  }

  /**
   * `a < b` exactly when `a` is a proper prefix of `b`, or at the first
   * position where they differ `a` has the smaller code point.
   */
  lemma {:induction false} LexLessFirstDifference(a: string, b: string)
    ensures LexLess(a, b) <==> ProperPrefix(a, b) || exists k :: 0 <= k < |a| && k < |b| && FirstDifference(a, b, k) && a[k] < b[k]
  {
    if a != [] && b != [] {
      if a[0] != b[0] {
        assert FirstDifference(a, b, 0);
      } else {
        LexLessFirstDifference(a[1..], b[1..]);
        ShiftDifference(a, b);
      }
    }
  }

  predicate ProperPrefix(a: string, b: string)
  {
    |a| < |b| && a == b[..|a|]
  }

  /** `a` and `b` agree before position `k` and differ at it. */
  predicate FirstDifference(a: string, b: string, k: nat)
    requires k < |a| && k < |b|
  {
    a[..k] == b[..k] && a[k] != b[k]
  }

  /** With equal first characters, prefixes and first differences move by one position. */
  lemma ShiftDifference(a: string, b: string)
    requires a != [] && b != [] && a[0] == b[0]
    ensures ProperPrefix(a, b) <==> ProperPrefix(a[1..], b[1..])
    ensures forall k :: 0 < k < |a| && k < |b| ==> (FirstDifference(a, b, k) <==> FirstDifference(a[1..], b[1..], k - 1))
    ensures !FirstDifference(a, b, 0)
  {
    assert a == [a[0]] + a[1..] && b == [b[0]] + b[1..];
    if ProperPrefix(a[1..], b[1..]) {
      assert b[..|a|] == [b[0]] + b[1..][..|a| - 1];
    }
    forall k | 0 < k < |a| && k < |b| ensures (FirstDifference(a, b, k) <==> FirstDifference(a[1..], b[1..], k - 1)) {
      ShiftPrefix(a, k);
      ShiftPrefix(b, k);
    }
  }

  lemma ShiftPrefix(a: string, k: int)
    requires 0 < k <= |a|
    ensures a[..k] == [a[0]] + a[1..][..k - 1]
    ensures k < |a| ==> a[1..][k - 1] == a[k]
  {
  }

  lemma {:induction false} LexLessIrreflexive(a: string)
    ensures !LexLess(a, a)
  {
    if a != [] {
      LexLessIrreflexive(a[1..]);
    }
  }

  lemma {:induction false} LexLessTransitive(a: string, b: string, c: string)
    requires LexLess(a, b) && LexLess(b, c)
    ensures LexLess(a, c)
  {
    if a != [] && a[0] == b[0] && b[0] == c[0] {
      LexLessTransitive(a[1..], b[1..], c[1..]);
    }
  }

  lemma {:induction false} LexLessTotal(a: string, b: string)
    requires a != b
    ensures LexLess(a, b) || LexLess(b, a)
  {
    if a != [] && b != [] && a[0] == b[0] {
      assert a == [a[0]] + a[1..] && b == [b[0]] + b[1..];
      LexLessTotal(a[1..], b[1..]);
    }
  }

  lemma {:induction false} LexLessAsymmetric(a: string, b: string)
    requires LexLess(a, b)
    ensures !LexLess(b, a)
  {
    if a != [] && b != [] && a[0] == b[0] {
      LexLessAsymmetric(a[1..], b[1..]);
    }
  }

  /** Strictly increasing; in particular no element occurs twice. */
  predicate StrictlySorted(xs: seq<string>)
  {
    forall i, j :: 0 <= i < j < |xs| ==> LexLess(xs[i], xs[j])
  }

  /** Puts `c` into its place in a strictly sorted sequence, unless it is already there. */
  function InsertSorted(xs: seq<string>, c: string): (r: seq<string>)
    requires StrictlySorted(xs)
    ensures StrictlySorted(r)
    ensures forall x :: x in r <==> x in xs || x == c
  {
    if xs == [] then [c]
    else if xs[0] == c then xs
    else if LexLess(c, xs[0]) then
      assert forall j :: 0 <= j < |xs| ==> LexLess(c, xs[j]) by {
        forall j | 0 <= j < |xs| ensures LexLess(c, xs[j]) {
          if j > 0 { LexLessTransitive(c, xs[0], xs[j]); }
        }
      }
      [c] + xs
    else
      LexLessTotal(c, xs[0]);
      var tail := InsertSorted(xs[1..], c);
      assert forall x :: x in xs[1..] ==> LexLess(xs[0], x);
      assert forall j :: 0 <= j < |tail| ==> LexLess(xs[0], tail[j]) by {
        forall j | 0 <= j < |tail| ensures LexLess(xs[0], tail[j]) {
          assert tail[j] in tail;
        }
      }
      assert xs == [xs[0]] + xs[1..];
      [xs[0]] + tail
  }

  /**
   * `sorted(set(xs))`: the distinct elements of `xs` in increasing order.
   * By StrictlySortedUnique it is the only strictly increasing listing of them.
   */
  function SortedDistinct(xs: seq<string>): (r: seq<string>)
    ensures StrictlySorted(r)
    ensures forall x :: x in r <==> x in xs
  {
    if xs == [] then []
    else
      var r := InsertSorted(SortedDistinct(xs[1..]), xs[0]);
      assert xs == [xs[0]] + xs[1..];
      r
  }

  /** Two strictly increasing sequences with the same elements are equal. */
  lemma {:induction false} StrictlySortedUnique(a: seq<string>, b: seq<string>)
    requires StrictlySorted(a) && StrictlySorted(b)
    requires forall x :: x in a <==> x in b
    ensures a == b
  {
    assert b != [] ==> b[0] in a;
    if a != [] {
      assert a[0] in b;
      assert b != [];
      if a[0] != b[0] {
        assert b[0] in a;
        var k :| 0 <= k < |a| && a[k] == b[0];
        var m :| 0 <= m < |b| && b[m] == a[0];
        assert k != 0 && m != 0;
        assert LexLess(a[0], b[0]) && LexLess(b[0], a[0]);
        LexLessAsymmetric(a[0], b[0]);
      }
      forall x ensures x in a[1..] <==> x in b[1..] {
        if x in a[1..] {
          var k :| 1 <= k < |a| && a[k] == x;
          LexLessIrreflexive(x);
          assert x != a[0];
          assert x in b;
        }
        if x in b[1..] {
          var k :| 1 <= k < |b| && b[k] == x;
          LexLessIrreflexive(x);
          assert x != b[0];
          assert x in a;
        }
      }
      StrictlySortedUnique(a[1..], b[1..]);
      assert a == [a[0]] + a[1..] && b == [b[0]] + b[1..];
    }
  }
}
