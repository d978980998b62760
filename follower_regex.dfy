/** The follower-count pattern the extractors apply to page text:
    `([\d,]+(?:\.\d+)?[KMB]?)\s*KEYWORD` with the `i` flag, where KEYWORD is "follower" for
    the JSON-LD description (the alternation `followers|Follower` accepts any text starting
    with "follower") and "followers" for the HTML extractor. The capture group is returned.

    The pattern is matched by a greedy scan. At a fixed start no backtracking alternative can
    succeed: every shorter choice leaves a digit, comma, point, suffix letter or whitespace
    character where the keyword's first letter must stand. */
module FollowerRegex {
  import opened Wrappers
  import opened Js
  import opened FollowersParser

  predicate IsDigitOrComma(c: char) {
    IsDigit(c) || c == ','
  }

  /** `[KMB]` under the `i` flag. */
  predicate IsSuffixLetter(c: char) {
    c == 'K' || c == 'M' || c == 'B' || c == 'k' || c == 'm' || c == 'b'
  }

  /** Length of the run of digits and commas at the start of `s`. */
  function CommaRun(s: string): (n: nat)
    ensures n <= |s|
  {
    if |s| > 0 && IsDigitOrComma(s[0]) then 1 + CommaRun(s[1..]) else 0
  }

  /** Length of the run of whitespace at the start of `s`. */
  function WhitespaceRun(s: string): (n: nat)
    ensures n <= |s|
  {
    if |s| > 0 && IsWhitespace(s[0]) then 1 + WhitespaceRun(s[1..]) else 0
  }

  /** Length of the fraction `\.\d+` at the start of `s`, or 0 when there is none. */
  function FractionLength(s: string): (n: nat)
    ensures n <= |s|
  {
    if |s| > 1 && s[0] == '.' && IsDigit(s[1]) then 1 + LeadingDigits(s[1..]) else 0
  }

  /** Length of the greedy capture `[\d,]+(\.\d+)?[KMB]?` at the start of `s`; 0 when `s`
      does not start with a digit or a comma. */
  function TokenLength(s: string): (n: nat)
    ensures n <= |s|
  {
    var a := CommaRun(s);
    if a == 0 then 0
    else
      var b := a + FractionLength(s[a..]);
      if b < |s| && IsSuffixLetter(s[b]) then b + 1 else b
  }

  /** `s` starts with `keyword` (given in upper case), compared case-insensitively. */
  predicate StartsWithKeyword(s: string, keyword: string) {
    |keyword| <= |s| && ToUpper(s[..|keyword|]) == keyword
  }

  /** The capture when the pattern matches at position `p` of `s`; it is never empty and
      lies within `s`. */
  function MatchAt(s: string, p: nat, keyword: string): (r: Option<string>)
    requires p <= |s|
    ensures r.Some? ==> r.value != [] && p + |r.value| <= |s|
  {
    var t := s[p..];
    var n := TokenLength(t);
    if n == 0 then None
    else if StartsWithKeyword(t[n + WhitespaceRun(t[n..])..], keyword) then
      Some(t[..n])
    else None
  }

  /** A match: where it starts and what the group captured. */
  datatype Match = Match(start: nat, capture: string)

  /** The leftmost match at or after position `p`. */
  function FindFrom(s: string, p: nat, keyword: string): Option<Match>
    requires p <= |s|
    decreases |s| - p
  {
    if MatchAt(s, p, keyword).Some? then Some(Match(p, MatchAt(s, p, keyword).value))
    else if p == |s| then None
    else FindFrom(s, p + 1, keyword)
  }

  /** `s.match(regex)`: the leftmost match, if any, which is a match at the position it
      reports. */
  function FindFollowerToken(s: string, keyword: string): (r: Option<Match>)
    ensures r.Some? ==> r.value.start <= |s| && MatchAt(s, r.value.start, keyword) == Some(r.value.capture)
  {
    if FindFrom(s, 0, keyword).Some? then FindFromFound(s, 0, keyword); FindFrom(s, 0, keyword)
    else None
  }

  /** The keyword the JSON-LD description is searched for. */
  const JsonLdKeyword: string := "FOLLOWER"

  /** The keyword og:description and the page text are searched for. */
  const HtmlKeyword: string := "FOLLOWERS"

  // ---------------------------------------------------------------------------
  // What a match is

  /** The shape of a capture: a run of digits and commas, an optional fraction and an
      optional suffix letter. */
  predicate TokenShape(run: string, fraction: string, suffix: string) {
    && run != [] && (forall i :: 0 <= i < |run| ==> IsDigitOrComma(run[i]))
    && (fraction == [] || (|fraction| > 1 && fraction[0] == '.' && AllDigits(fraction[1..])))
    && (suffix == [] || (|suffix| == 1 && IsSuffixLetter(suffix[0])))
  }

  lemma {:induction false} CommaRunSpec(s: string)
    ensures forall i :: 0 <= i < CommaRun(s) ==> IsDigitOrComma(s[i])
  {
    if |s| > 0 && IsDigitOrComma(s[0]) {
      CommaRunSpec(s[1..]);
      forall i | 0 <= i < CommaRun(s) ensures IsDigitOrComma(s[i]) {
        if i > 0 {
          assert s[i] == s[1..][i - 1];
        }
      }
    }
  }

  /** The digit-and-comma run at the start of `s`. */
  lemma RunPart(s: string)
    ensures forall i :: 0 <= i < CommaRun(s) ==> IsDigitOrComma(s[..CommaRun(s)][i])
  {
    CommaRunSpec(s);
    forall i | 0 <= i < CommaRun(s) ensures IsDigitOrComma(s[..CommaRun(s)][i]) {
      assert s[..CommaRun(s)][i] == s[i];
    }
  }

  /** The fraction at the start of `u`, when there is one, is a point and digits. */
  lemma FractionPart(u: string)
    ensures var f := FractionLength(u);
      f == 0 || (f > 1 && u[0] == '.' && AllDigits(u[..f][1..]))
  {
    var f := FractionLength(u);
    if f > 0 {
      LeadingDigitsSpec(u[1..]);
      assert u[..f][1..] == u[1..][..LeadingDigits(u[1..])];
    }
  }

  /** Every capture has the token shape. */
  lemma TokenLengthShape(s: string) returns (run: string, fraction: string, suffix: string)
    requires TokenLength(s) > 0
    ensures TokenShape(run, fraction, suffix)
    ensures s[..TokenLength(s)] == run + fraction + suffix
  {
    var n := TokenLength(s);
    var a := CommaRun(s);
    var u := s[a..];
    var f := FractionLength(u);
    var b := a + f;
    assert n == if b < |s| && IsSuffixLetter(s[b]) then b + 1 else b;
    RunPart(s);
    FractionPart(u);
    run, fraction, suffix := s[..a], u[..f], s[b..n];
    assert fraction == s[a..b];
    assert s[..n] == run + fraction + suffix;
  }

  /** A match captures text of token shape, split here into its three parts. */
  lemma MatchAtShape(s: string, p: nat, keyword: string) returns (run: string, fraction: string, suffix: string)
    requires p <= |s| && MatchAt(s, p, keyword).Some?
    ensures TokenShape(run, fraction, suffix)
    ensures MatchAt(s, p, keyword).value == run + fraction + suffix
  {
    var t := s[p..];
    assert MatchAt(s, p, keyword).value == t[..TokenLength(t)];
    run, fraction, suffix := TokenLengthShape(t);
  }

  /** A match is the text at its position, followed by optional whitespace and the keyword. */
  lemma MatchAtPlace(s: string, p: nat, keyword: string)
    requires p <= |s| && MatchAt(s, p, keyword).Some?
    ensures var n := |MatchAt(s, p, keyword).value|;
      && p + n <= |s| && MatchAt(s, p, keyword).value == s[p..p + n]
      && StartsWithKeyword(s[p + n + WhitespaceRun(s[p + n..])..], keyword)
  {
    var t := s[p..];
    var n := TokenLength(t);
    assert s[p..p + n] == t[..n];
    assert s[p + n..] == t[n..];
  }

  lemma {:induction false} CommaRunOf(run: string, x: string)
    requires forall i :: 0 <= i < |run| ==> IsDigitOrComma(run[i])
    requires x == [] || !IsDigitOrComma(x[0])
    ensures CommaRun(run + x) == |run|
  {
    if run != [] {
      assert (run + x)[1..] == run[1..] + x;
      CommaRunOf(run[1..], x);
    } else {
      assert run + x == x;
    }
  }

  lemma {:induction false} WhitespaceRunOf(ws: string, x: string)
    requires AllWhitespace(ws) && (x == [] || !IsWhitespace(x[0]))
    ensures WhitespaceRun(ws + x) == |ws|
  {
    if ws != [] {
      assert (ws + x)[1..] == ws[1..] + x;
      WhitespaceRunOf(ws[1..], x);
    } else {
      assert ws + x == x;
    }
  }

  /** The fraction part of a capture is measured exactly when what follows does not start
      with a digit. */
  lemma FractionLengthOf(fraction: string, y: string)
    requires |fraction| > 1 && fraction[0] == '.' && AllDigits(fraction[1..])
    requires y == [] || !IsDigit(y[0])
    ensures FractionLength(fraction + y) == |fraction|
  {
    var x := fraction + y;
    assert x[1..] == fraction[1..] + y;
    LeadingDigitsOf(fraction[1..], y);
  }

  /** A character that ends a capture: it can continue none of its three parts. */
  predicate EndsToken(c: char) {
    !IsDigitOrComma(c) && c != '.' && !IsSuffixLetter(c)
  }

  /** The greedy capture of text of token shape followed by a character that ends it is
      that text. */
  lemma TokenLengthOf(run: string, fraction: string, suffix: string, x: string)
    requires TokenShape(run, fraction, suffix) && (x == [] || EndsToken(x[0]))
    ensures TokenLength(run + fraction + suffix + x) == |run| + |fraction| + |suffix|
  {
    var t := run + fraction + suffix + x;
    var x2 := suffix + x;
    var x1 := fraction + x2;
    assert t == run + x1 by {
      ConcatAssoc(run, fraction, suffix);
      ConcatAssoc(run + fraction, suffix, x);
      ConcatAssoc(run, fraction, x2);
    }
    assert x2 == [] || x2[0] == (if suffix == [] then x[0] else suffix[0]);
    assert x1 == [] || x1[0] == (if fraction == [] then x2[0] else '.');
    CommaRunOf(run, x1);
    assert t[|run|..] == x1;
    if fraction != [] {
      FractionLengthOf(fraction, x2);
    }
    var b := |run| + |fraction|;
    assert t[b..] == x2;
    assert FractionLength(t[|run|..]) == |fraction|;
    assert (b < |t| && IsSuffixLetter(t[b])) == (suffix != []) by {
      if b < |t| {
        assert t[b] == x2[0];
      }
    }
  }

  /** Conversely, text of token shape followed by optional whitespace and the keyword is
      matched, and captured in full. Both keywords start with F, which is neither a digit,
      a comma, a point, a suffix letter nor whitespace, so the greedy scan stops exactly
      where the token ends. */
  lemma MatchAtComplete(s: string, p: nat, run: string, fraction: string, suffix: string,
                        ws: string, rest: string, keyword: string)
    requires p <= |s| && s[p..] == run + fraction + suffix + ws + rest
    requires TokenShape(run, fraction, suffix) && AllWhitespace(ws)
    requires |keyword| > 0 && keyword[0] == 'F' && StartsWithKeyword(rest, keyword)
    ensures MatchAt(s, p, keyword) == Some(run + fraction + suffix)
  {
    assert rest[0] == 'f' || rest[0] == 'F' by {
      assert ToUpper(rest[..|keyword|])[0] == keyword[0];
    }
    var t := s[p..];
    var token := run + fraction + suffix;
    var tail := ws + rest;
    assert t == token + tail;
    assert tail[0] == (if ws == [] then rest[0] else ws[0]);
    TokenLengthOf(run, fraction, suffix, tail);
    var n := |token|;
    assert t[..n] == token && t[n..] == tail;
    WhitespaceRunOf(ws, rest);
    assert tail[|ws|..] == rest;
  }

  /** A match the search reports is a match at that position, and there is none before. */
  lemma {:induction false} FindFromFound(s: string, p: nat, keyword: string)
    requires p <= |s| && FindFrom(s, p, keyword).Some?
    ensures var m := FindFrom(s, p, keyword).value;
      p <= m.start <= |s| && MatchAt(s, m.start, keyword) == Some(m.capture)
    ensures forall q :: p <= q < FindFrom(s, p, keyword).value.start ==> MatchAt(s, q, keyword).None?
    decreases |s| - p
  {
    if MatchAt(s, p, keyword).None? {
      FindFromFound(s, p + 1, keyword);
    }
  }

  /** When the search finds nothing, there is no match at any later position. */
  lemma {:induction false} FindFromNone(s: string, p: nat, keyword: string)
    requires p <= |s| && FindFrom(s, p, keyword).None?
    ensures forall q :: p <= q <= |s| ==> MatchAt(s, q, keyword).None?
    decreases |s| - p
  {
    if p < |s| {
      FindFromNone(s, p + 1, keyword);
    }
  }

  /** `match` finds the leftmost match: no position before the one it reports matches,
      and no position matches at all when it finds nothing. */
  lemma FindFollowerTokenLeftmost(s: string, keyword: string)
    ensures var r := FindFollowerToken(s, keyword);
      r.Some? ==> forall q :: 0 <= q < r.value.start ==> MatchAt(s, q, keyword).None?
    ensures FindFollowerToken(s, keyword).None? ==> forall q :: 0 <= q <= |s| ==> MatchAt(s, q, keyword).None?
  {
    if FindFollowerToken(s, keyword).Some? {
      FindFromFound(s, 0, keyword);
    } else {
      FindFromNone(s, 0, keyword);
    }
  }
}
