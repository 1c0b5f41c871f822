/** String operations of JavaScript that the pitch code relies on:
    `split` on a one-character separator, `join`, `trim`, and the notion of a
    text embedded verbatim at a position. */
module Text {

  /** `parts.join(sep)`: the parts with `sep` between neighbours. */
  function Join(parts: seq<string>, sep: string): string
  {
    if |parts| == 0 then ""
    else if |parts| == 1 then parts[0]
    else parts[0] + sep + Join(parts[1..], sep)
  }

  /** `parts.join("")`. */
  function Concat(parts: seq<string>): string
  {
    Join(parts, "")
  }

  /** No part contains the separator character. */
  predicate SeparatorFree(parts: seq<string>, sep: char)
  {
    forall k :: 0 <= k < |parts| ==> sep !in parts[k]
  }

  /** The number of occurrences of `c` in `s`. */
  function Count(s: string, c: char): nat
  {
    if |s| == 0 then 0
    else (if s[0] == c then 1 else 0) + Count(s[1..], c)
  }

  /** `s.split(sep)` for a one-character separator. Every occurrence of `sep`
      cuts, so adjacent separators give empty parts, and `"".split(sep)` is
      `[""]`. `SplitDecomposes` states what the parts are and `SplitUnique`
      that no other decomposition exists. There is one part more than there
      are separators in `s`. */
  function Split(s: string, sep: char): (r: seq<string>)
    ensures |r| == Count(s, sep) + 1
  {
    if |s| == 0 then [""]
    else
      var rest := Split(s[1..], sep);
      if s[0] == sep then [""] + rest
      else [[s[0]] + rest[0]] + rest[1..]
  }

  /** `Split` cuts `s` into at least one separator-free part, and joining the
      parts with the separator gives `s` back. */
  lemma {:induction false} SplitDecomposes(s: string, sep: char)
    ensures |Split(s, sep)| >= 1
    ensures SeparatorFree(Split(s, sep), sep)
    ensures Join(Split(s, sep), [sep]) == s
  {
    if |s| > 0 {
      SplitDecomposes(s[1..], sep);
      var rest := Split(s[1..], sep);
      assert s == [s[0]] + s[1..];
      if s[0] == sep {
        assert ([""] + rest)[1..] == rest;
      } else {
        var parts := [[s[0]] + rest[0]] + rest[1..];
        assert parts[1..] == rest[1..];
        assert forall k :: 1 <= k < |parts| ==> parts[k] == rest[k];
        if |rest| > 1 {
          assert Join(rest, [sep]) == rest[0] + [sep] + Join(rest[1..], [sep]);
        }
      }
    }
  }

  /** A string without the separator splits into itself alone. */
  lemma {:induction false} SplitWithoutSeparator(s: string, sep: char)
    requires sep !in s
    ensures Split(s, sep) == [s]
  {
    if |s| > 0 {
      NotInTail(s, sep);
      SplitWithoutSeparator(s[1..], sep);
      assert [s[0]] + s[1..] == s;
    }
  }

  /** Splitting `p + sep + t` with a separator-free `p` cuts off `p` first. */
  lemma {:induction false} SplitAfterFirstSeparator(p: string, t: string, sep: char)
    requires sep !in p
    ensures Split(p + [sep] + t, sep) == [p] + Split(t, sep)
  {
    var s := p + [sep] + t;
    if |p| == 0 {
      assert s[0] == sep;
      assert s[1..] == t;
    } else {
      NotInTail(p, sep);
      SplitAfterFirstSeparator(p[1..], t, sep);
      assert s[1..] == p[1..] + [sep] + t;
      var rest := Split(s[1..], sep);
      assert rest == [p[1..]] + Split(t, sep);
      assert s[0] == p[0] != sep;
      assert Split(s, sep) == [[s[0]] + rest[0]] + rest[1..];
      assert [p[0]] + p[1..] == p;
      assert rest[1..] == Split(t, sep);
    }
  }

  /** A character missing from `p` is missing from its tail. */
  lemma NotInTail(p: string, c: char)
    requires |p| > 0 && c !in p
    ensures c !in p[1..]
  {
    forall k | 0 <= k < |p[1..]| ensures p[1..][k] != c {
      assert p[1..][k] == p[k + 1];
    }
  }

  /** The decomposition `Split` returns is the only list of separator-free
      parts that joins back to `s`. */
  lemma {:induction false} SplitUnique(s: string, sep: char, parts: seq<string>)
    requires |parts| >= 1
    requires SeparatorFree(parts, sep)
    requires Join(parts, [sep]) == s
    ensures Split(s, sep) == parts
    decreases |parts|
  {
    if |parts| == 1 {
      SplitWithoutSeparator(s, sep);
    } else {
      var rest := parts[1..];
      assert SeparatorFree(rest, sep) by {
        forall k | 0 <= k < |rest| ensures sep !in rest[k] {
          assert rest[k] == parts[k + 1];
        }
      }
      SplitUnique(Join(rest, [sep]), sep, rest);
      assert sep !in parts[0];
      SplitAfterFirstSeparator(parts[0], Join(rest, [sep]), sep);
      assert [parts[0]] + rest == parts;
    }
  }

  /** The first `n` elements of `xs`, or all of them when there are fewer:
      `xs.slice(0, n)`. */
  function Take<T>(xs: seq<T>, n: nat): (r: seq<T>)
    ensures |r| <= n && |r| <= |xs|
    ensures |xs| >= n ==> |r| == n
    ensures r <= xs
    ensures |xs| <= n ==> r == xs
  {
    if |xs| <= n then xs else xs[..n]
  }

  /** `t` occurs verbatim in `s` starting at index `i`. */
  ghost predicate OccursAt(s: string, t: string, i: int)
  {
    0 <= i && i + |t| <= |s| && s[i..i + |t|] == t
  }

  /** In a text filled from a template of seven pieces, each piece sits
      verbatim right after the pieces before it. */
  lemma FillOccurs(a: string, x: string, b: string, y: string, c: string, z: string, d: string)
    ensures var p := a + x + b + y + c + z + d;
      && |p| == |a| + |x| + |b| + |y| + |c| + |z| + |d|
      && OccursAt(p, a, 0)
      && OccursAt(p, x, |a|)
      && OccursAt(p, y, |a| + |x| + |b|)
      && OccursAt(p, z, |a| + |x| + |b| + |y| + |c|)
  {
    var p := a + x + b + y + c + z + d;
    var i := |a| + |x| + |b|;
    var j := i + |y| + |c|;
    assert p[..|a|] == a;
    assert p[|a|..|a| + |x|] == x;
    assert p[i..i + |y|] == y;
    assert p[j..j + |z|] == z;
  }

  /** In a concatenation of six pieces, each of the first five sits verbatim
      right after the pieces before it. */
  lemma SixPiecesOccur(a: string, b: string, c: string, d: string, e: string, f: string)
    ensures var p := a + b + c + d + e + f;
      && |p| == |a| + |b| + |c| + |d| + |e| + |f|
      && OccursAt(p, a, 0)
      && OccursAt(p, b, |a|)
      && OccursAt(p, c, |a| + |b|)
      && OccursAt(p, d, |a| + |b| + |c|)
      && OccursAt(p, e, |a| + |b| + |c| + |d|)
  {
    var p := a + b + c + d + e + f;
    var i := |a| + |b|;
    var j := i + |c| + |d|;
    assert p[..|a|] == a;
    assert p[|a|..i] == b;
    assert p[i..i + |c|] == c;
    assert p[i + |c|..j] == d;
    assert p[j..j + |e|] == e;
  }

  /** The characters `String.prototype.trim` removes: ECMAScript's WhiteSpace
      and LineTerminator code points. */
  predicate IsJsWhiteSpace(c: char)
  {
    || c == '\t' || c == '\n' || c == '\U{000B}' || c == '\U{000C}' || c == '\r'
    || c == ' ' || c == '\U{00A0}' || c == '\U{1680}'
    || ('\U{2000}' <= c <= '\U{200A}')
    || c == '\U{2028}' || c == '\U{2029}' || c == '\U{202F}' || c == '\U{205F}'
    || c == '\U{3000}' || c == '\U{FEFF}'
  }

  /** Every character of `s` is white space (vacuously so for `""`). */
  predicate AllWhiteSpace(s: string)
  {
    forall k :: 0 <= k < |s| ==> IsJsWhiteSpace(s[k])
  }

  /** `s` with its leading white space removed. */
  function TrimStart(s: string): (r: string)
    ensures |r| <= |s| && r == s[|s| - |r|..]
    ensures AllWhiteSpace(s[..|s| - |r|])
    ensures r != "" ==> !IsJsWhiteSpace(r[0])
  {
    if |s| == 0 then s
    else if IsJsWhiteSpace(s[0]) then
      var r := TrimStart(s[1..]);
      assert s[..|s| - |r|] == [s[0]] + s[1..][..|s[1..]| - |r|];
      r
    else s
  }

  /** `s` with its trailing white space removed. */
  function TrimEnd(s: string): (r: string)
    ensures |r| <= |s| && r == s[..|r|]
    ensures AllWhiteSpace(s[|r|..])
    ensures r != "" ==> !IsJsWhiteSpace(r[|r| - 1])
  {
    if |s| == 0 then s
    else if IsJsWhiteSpace(s[|s| - 1]) then
      var r := TrimEnd(s[..|s| - 1]);
      assert s[|r|..] == s[..|s| - 1][|r|..] + [s[|s| - 1]];
      r
    else s
  }

  /** `s.trim()`: the stretch of `s` between its leading and trailing white
      space. It is empty exactly when `s` is all white space;
      `TrimLeavesOnlyWhiteSpace` states that only white space is cut. */
  function Trim(s: string): (r: string)
    ensures |r| <= |s|
    ensures r == "" <==> AllWhiteSpace(s)
    ensures r != "" ==> !IsJsWhiteSpace(r[0]) && !IsJsWhiteSpace(r[|r| - 1])
    ensures OccursAt(s, r, |s| - |TrimStart(s)|)
  {
    TrimComposition(s);
    TrimEnd(TrimStart(s))
  }

  /** Trimming both ends leaves a stretch of `s` that is empty exactly when
      every character of `s` is white space. */
  lemma {:induction false} TrimComposition(s: string)
    ensures var t := TrimStart(s); var r := TrimEnd(t);
      && OccursAt(s, r, |s| - |t|)
      && (r == "" <==> AllWhiteSpace(s))
  {
    TrimOccurs(s, TrimStart(s), TrimEnd(TrimStart(s)));
    TrimEmptyIff(s, TrimStart(s), TrimEnd(TrimStart(s)));
  }

  /** What is left after trimming sits in `s` right after the leading white
      space. */
  lemma {:induction false} TrimOccurs(s: string, t: string, r: string)
    requires t == TrimStart(s) && r == TrimEnd(t)
    ensures OccursAt(s, r, |s| - |t|)
  {
    PrefixOfSuffix(s, |s| - |t|, r);
  }

  /** Trimming leaves nothing exactly when `s` is all white space. */
  lemma {:induction false} TrimEmptyIff(s: string, t: string, r: string)
    requires t == TrimStart(s) && r == TrimEnd(t)
    ensures r == "" <==> AllWhiteSpace(s)
  {
    var i := |s| - |t|;
    if r == "" {
      assert t[|r|..] == t;
      assert s == s[..i] + t;
      AllWhiteSpaceAppend(s[..i], t);
    } else {
      assert s[i] == t[0] == r[0];
    }
  }

  /** Trimming cuts only white space: everything before the trimmed text and
      everything after it is white space. With `Trim`'s own contract this
      determines the result. */
  lemma {:induction false} TrimLeavesOnlyWhiteSpace(s: string)
    ensures AllWhiteSpace(s[..|s| - |TrimStart(s)|])
    ensures AllWhiteSpace(s[|s| - |TrimStart(s)| + |Trim(s)|..])
  {
    var t := TrimStart(s);
    WhiteTailOfSuffix(s, |s| - |t|, |TrimEnd(t)|);
  }

  /** A prefix of a suffix of `s` occurs in `s` where the suffix starts. */
  lemma PrefixOfSuffix(s: string, i: int, r: string)
    requires 0 <= i <= |s| && |r| <= |s| - i && r == s[i..][..|r|]
    ensures OccursAt(s, r, i)
  {
    assert s[i..i + |r|] == s[i..][..|r|];
  }

  /** White space at the end of a suffix is white space at the end of `s`. */
  lemma WhiteTailOfSuffix(s: string, i: int, j: int)
    requires 0 <= i <= |s| && 0 <= j <= |s| - i && AllWhiteSpace(s[i..][j..])
    ensures AllWhiteSpace(s[i + j..])
  {
    assert s[i..][j..] == s[i + j..];
  }

  lemma AllWhiteSpaceAppend(a: string, b: string)
    requires AllWhiteSpace(a) && AllWhiteSpace(b)
    ensures AllWhiteSpace(a + b)
  {
    forall k | 0 <= k < |a + b| ensures IsJsWhiteSpace((a + b)[k]) {
      if k < |a| {
        assert (a + b)[k] == a[k];
      } else {
        assert (a + b)[k] == b[k - |a|];
      }
    }
  }
}
