/** The "JSON embedded in prose" extraction both callers use:
    `text.match(/\{[\s\S]*\}/)`. The pattern is an opening brace, any run of
    characters (line breaks included), and a closing brace. `match` reports the
    leftmost match, and the greedy star makes it the longest one from there:
    the span runs from the first `{` to the last `}` after it. */
module BraceSpan {
  import opened JsValues

  /** `s[a..b]` matches the pattern: it starts with `{`, ends with `}`, and
      the two are distinct characters. */
  ghost predicate IsMatch(s: string, a: int, b: int)
  {
    0 <= a && a + 2 <= b <= |s| && s[a] == '{' && s[b - 1] == '}'
  }

  /** The match `String.prototype.match` reports: no match starts further left,
      and none from the same start reaches further right. */
  ghost predicate IsReportedMatch(s: string, a: int, b: int)
  {
    && IsMatch(s, a, b)
    && (forall a', b' :: 0 <= a' < a ==> !IsMatch(s, a', b'))
    && (forall b' :: b < b' ==> !IsMatch(s, a, b'))
  }

  /** The pattern matches nowhere in `s` (`match` returns `null`). */
  ghost predicate NoMatch(s: string)
  {
    forall a, b :: !IsMatch(s, a, b)
  }

  /** Index of the first `c` in `s`, `s.indexOf(c)`. */
  function FirstIndexOf(s: string, c: char): (r: Option<nat>)
    ensures r.None? <==> c !in s
    ensures r.Some? ==> r.value < |s| && s[r.value] == c
    ensures r.Some? ==> forall k :: 0 <= k < r.value ==> s[k] != c
  {
    if |s| == 0 then None
    else if s[0] == c then Some(0)
    else
      match FirstIndexOf(s[1..], c)
      case None => None
      case Some(i) => Some(i + 1)
  }

  /** Index of the last `c` in `s`, `s.lastIndexOf(c)`. */
  function LastIndexOf(s: string, c: char): (r: Option<nat>)
    ensures r.None? <==> c !in s
    ensures r.Some? ==> r.value < |s| && s[r.value] == c
    ensures r.Some? ==> forall k :: r.value < k < |s| ==> s[k] != c
  {
    if |s| == 0 then None
    else if s[|s| - 1] == c then Some(|s| - 1)
    else
      var init := s[..|s| - 1];
      assert forall k :: 0 <= k < |init| ==> init[k] == s[k];
      LastIndexOf(init, c)
  }

  /** The bounds `[a, b)` of the reported match, found as the first `{` and the
      last `}`; none when that `}` does not come after that `{`. */
  function SpanBounds(s: string): (r: Option<(nat, nat)>)
    ensures r.None? <==> NoMatch(s)
    ensures r.Some? ==> IsReportedMatch(s, r.value.0, r.value.1)
  {
    match FirstIndexOf(s, '{')
    case None => None
    case Some(i) =>
      match LastIndexOf(s, '}')
      case None => None
      case Some(j) =>
        if i < j then
          assert IsMatch(s, i, j + 1);
          Some((i, j + 1))
        else
          assert NoMatch(s) by {
            forall a, b ensures !IsMatch(s, a, b) {
              if IsMatch(s, a, b) {
                assert false;
              }
            }
          }
          None
  }

  /** `text.match(/\{[\s\S]*\}/)?.[0]`: the matched span itself. It is a piece
      of `s` that begins with `{` and ends with `}`. */
  function Extract(s: string): (r: Option<string>)
    ensures r.None? <==> NoMatch(s)
    ensures r.Some? ==> exists a, b :: IsReportedMatch(s, a, b) && r.value == s[a..b]
    ensures r.Some? ==> |r.value| >= 2 && r.value[0] == '{' && r.value[|r.value| - 1] == '}'
  {
    match SpanBounds(s)
    case None => None
    case Some((a, b)) => Some(s[a..b])
  }

  /** The reported match is unique: the leftmost start and then the longest end
      are each determined by `s`. */
  lemma ReportedMatchUnique(s: string, a: int, b: int, a': int, b': int)
    requires IsReportedMatch(s, a, b)
    requires IsReportedMatch(s, a', b')
    ensures a == a' && b == b'
  {
  }

  /** Whenever a reported match exists, `Extract` returns exactly that span. */
  lemma ExtractIsReportedMatch(s: string, a: int, b: int)
    requires IsReportedMatch(s, a, b)
    ensures Extract(s) == Some(s[a..b])
  {
    var bounds := SpanBounds(s);
    assert bounds.Some?;
    ReportedMatchUnique(s, a, b, bounds.value.0, bounds.value.1);
  }

  /** Prose around the braces is dropped: when no `{` comes before the frame
      and no `}` after it, the span is exactly the framed text. `inner` may
      itself hold braces, so a reply with two objects and prose between them
      is captured as one span from the first object's `{` to the second's `}`. */
  lemma ExtractFramed(prefix: string, inner: string, suffix: string)
    requires '{' !in prefix && '}' !in suffix
    ensures Extract(prefix + "{" + inner + "}" + suffix) == Some("{" + inner + "}")
  {
    var m := "{" + inner + "}";
    assert prefix + "{" + inner + "}" + suffix == prefix + m + suffix;
    ExtractSpan(prefix, m, suffix);
  }

  /** A span that begins with `{` and ends with `}`, with no `{` before it and
      no `}` after it, is what `Extract` returns. */
  lemma ExtractSpan(prefix: string, m: string, suffix: string)
    requires |m| >= 2 && m[0] == '{' && m[|m| - 1] == '}'
    requires '{' !in prefix && '}' !in suffix
    ensures Extract(prefix + m + suffix) == Some(m)
  {
    var s := prefix + m + suffix;
    var a, b := |prefix|, |prefix| + |m|;
    SpanIsReportedMatch(prefix, m, suffix);
    ExtractIsReportedMatch(s, a, b);
    assert s[a..b] == m;
  }

  /** The framed span is the reported match: no `{` before it, no `}` after. */
  lemma SpanIsReportedMatch(prefix: string, m: string, suffix: string)
    requires |m| >= 2 && m[0] == '{' && m[|m| - 1] == '}'
    requires '{' !in prefix && '}' !in suffix
    ensures IsReportedMatch(prefix + m + suffix, |prefix|, |prefix| + |m|)
  {
    var s := prefix + m + suffix;
    var a, b := |prefix|, |prefix| + |m|;
    assert s[a] == m[0] && s[b - 1] == m[|m| - 1];
    forall a', b' | 0 <= a' < a ensures !IsMatch(s, a', b') {
      assert s[a'] == prefix[a'];
    }
    forall b' | b < b' ensures !IsMatch(s, a, b') {
      if b' <= |s| {
        assert s[b' - 1] == suffix[b' - 1 - b];
      }
    }
  }
}
