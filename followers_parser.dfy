/** The follower-count normaliser `parseFollowers`: "2.1K" -> 2100, "12,540" -> 12540,
    anything without a readable number -> 'unknown'. Numbers are exact decimals here,
    where the source uses IEEE-754 doubles. */
module FollowersParser {
  import opened Wrappers
  import opened Js

  /** The exact number `mantissa * 10^exponent`. */
  datatype Decimal = Decimal(mantissa: int, exponent: int)

  /** What `parseFollowers` returns: a number, or the string 'unknown'. */
  datatype Parsed = Unknown | Count(n: int)

  function Pow10(n: nat): (p: nat)
    ensures p >= 1
  {
    if n == 0 then 1 else 10 * Pow10(n - 1)
  }

  /** `d * 10^k`, exactly. */
  function Shift(d: Decimal, k: nat): Decimal {
    Decimal(d.mantissa, d.exponent + k)
  }

  /** `n` is the greatest integer not above `d.mantissa * 10^d.exponent`. */
  predicate IsFloorOf(n: int, d: Decimal) {
    if d.exponent >= 0 then n == d.mantissa * Pow10(d.exponent)
    else n * Pow10(-d.exponent) <= d.mantissa < (n + 1) * Pow10(-d.exponent)
  }

  /** `Math.floor`. */
  function Floor(d: Decimal): (r: int)
    ensures IsFloorOf(r, d)
  {
    if d.exponent >= 0 then d.mantissa * Pow10(d.exponent)
    else
      var q := Pow10(-d.exponent);
      var r := d.mantissa / q;
      assert d.mantissa == r * q + d.mantissa % q;
      assert (r + 1) * q == r * q + q;
      r
  }

  /** Value of an exponent part `[eE][+-]?[0-9]+` at the start of `s`; 0 when `s` does not
      start with a complete one (then the literal ends before the `E`). */
  function ExponentValue(s: string): int {
    if |s| > 0 && (s[0] == 'e' || s[0] == 'E') then
      var t := s[1..];
      var u := if |t| > 0 && (t[0] == '+' || t[0] == '-') then t[1..] else t;
      var n := LeadingDigits(u);
      if n == 0 then 0
      else if t[0] == '-' then -(DigitsValue(u[..n]) as int)
      else DigitsValue(u[..n])
    else
      0
  }

  /** A sign, then a digit or a point followed by a digit. */
  predicate StartsNumber(t: string) {
    var u := if |t| > 0 && (t[0] == '+' || t[0] == '-') then t[1..] else t;
    (|u| > 0 && IsDigit(u[0])) || (|u| > 1 && u[0] == '.' && IsDigit(u[1]))
  }

  /** `parseFloat`: after leading whitespace, the longest prefix of the form
      `[+-]?([0-9]+(\.[0-9]*)?|\.[0-9]+)([eE][+-]?[0-9]+)?`, or None (NaN) when no prefix
      has that form. */
  function ParseFloat(text: string): Option<Decimal> {
    ParseSigned(TrimStart(text))
  }

  function ParseSigned(s: string): Option<Decimal> {
    if |s| > 0 && s[0] == '-' then
      match ParseUnsigned(s[1..])
      case None => None
      case Some(d) => Some(Decimal(-d.mantissa, d.exponent))
    else if |s| > 0 && s[0] == '+' then ParseUnsigned(s[1..])
    else ParseUnsigned(s)
  }

  /** The unsigned literal at the start of `body`: its integer digits, then the rest. */
  function ParseUnsigned(body: string): Option<Decimal> {
    var i := LeadingDigits(body);
    ParseFraction(body[..i], body[i..])
  }

  /** The literal with integer digits `whole`, continued by `rest`: an optional point and
      fraction digits, then an optional exponent; at least one digit overall. */
  function ParseFraction(whole: string, rest: string): Option<Decimal> {
    if |rest| > 0 && rest[0] == '.' then PointFraction(whole, rest[1..])
    else if whole == [] then None
    else Some(Decimal(DigitsValue(whole), ExponentValue(rest)))
  }

  /** The literal with integer digits `whole` and a point, followed by `afterPoint`. */
  function PointFraction(whole: string, afterPoint: string): Option<Decimal> {
    var f := LeadingDigits(afterPoint);
    if |whole| + f == 0 then None
    else Some(Decimal(DigitsValue(whole + afterPoint[..f]), ExponentValue(afterPoint[f..]) - f))
  }

  /** The text `parseFollowers` works on: trimmed, upper-cased, with every whitespace
      character removed. */
  function Clean(text: string): string {
    RemoveWhitespace(ToUpper(Trim(text)))
  }

  /** Power of ten a trailing suffix letter stands for. */
  function SuffixScale(c: char): Option<nat> {
    if c == 'K' then Some(3) else if c == 'M' then Some(6) else if c == 'B' then Some(9) else None
  }

  /** Commas dropped, `parseFloat`, multiplied by `10^k`, then `Math.floor`. */
  function ParseScaled(numberPart: string, k: nat): Parsed {
    match ParseFloat(RemoveCommas(numberPart))
    case None => Unknown
    case Some(d) => Count(Floor(Shift(d, k)))
  }

  /** The K/M/B dispatch on already cleaned text: only the last character is tested, so at
      most one suffix is taken off. */
  function ParseCleaned(cleaned: string): Parsed {
    if cleaned == [] then Unknown
    else
      match SuffixScale(cleaned[|cleaned| - 1])
      case Some(k) => ParseScaled(cleaned[..|cleaned| - 1], k)
      case None => ParseScaled(cleaned, 0)
  }

  /** `parseFollowers`. A value that is not a string, and the empty string, are 'unknown';
      what it gives for other strings is stated by the lemmas below. */
  function ParseFollowers(text: JsValue): (r: Parsed)
    ensures !text.Str? || text.s == "" ==> r == Unknown
  {
    if !Truthy(text) || !text.Str? then Unknown else ParseCleaned(Clean(text.s))
  }

  // ---------------------------------------------------------------------------
  // Properties

  /** A falsy or non-string value is 'unknown'. */
  lemma NonTextIsUnknown(v: JsValue)
    requires !v.Str? || v.s == ""
    ensures ParseFollowers(v) == Unknown
  {
  }

  lemma {:induction false} UpperKeepsWhitespace(s: string)
    ensures forall i :: 0 <= i < |s| ==> (IsWhitespace(ToUpper(s)[i]) <==> IsWhitespace(s[i]))
  {
  }

  /** Trimming first changes nothing: every whitespace character is removed anyway. */
  lemma CleanIgnoresTrim(s: string)
    ensures Clean(s) == RemoveWhitespace(ToUpper(s))
  {
    var t := Trim(s);
    var k := TrimSlice(s);
    SplitAround(s, k, t);
    BlankAroundVanishes(s[..k], t, s[k + |t|..]);
  }

  lemma BlankAroundVanishes(pre: string, t: string, post: string)
    requires AllWhitespace(pre) && AllWhitespace(post)
    ensures RemoveWhitespace(ToUpper(pre + t + post)) == RemoveWhitespace(ToUpper(t))
  {
    ToUpperConcat(pre + t, post);
    ToUpperConcat(pre, t);
    RemoveWhitespaceConcat(ToUpper(pre) + ToUpper(t), ToUpper(post));
    RemoveWhitespaceConcat(ToUpper(pre), ToUpper(t));
    UpperKeepsWhitespace(pre);
    UpperKeepsWhitespace(post);
    RemoveWhitespaceOfBlank(ToUpper(pre));
    RemoveWhitespaceOfBlank(ToUpper(post));
  }

  /** The result depends only on the text with whitespace removed and ASCII letters
      upper-cased: "2.1 k" parses like "2.1K". */
  lemma IgnoresWhitespaceAndCase(a: string, b: string)
    requires RemoveWhitespace(ToUpper(a)) == RemoveWhitespace(ToUpper(b))
    ensures ParseFollowers(Str(a)) == ParseFollowers(Str(b))
  {
    CleanIgnoresTrim(a);
    CleanIgnoresTrim(b);
    assert Clean(a) == Clean(b);
    FollowersOfText(a);
    FollowersOfText(b);
  }

  /** For text, the result is the dispatch on the cleaned text (the empty string cleans
      to nothing and is 'unknown' either way). */
  lemma FollowersOfText(s: string)
    ensures ParseFollowers(Str(s)) == ParseCleaned(Clean(s))
  {
    if s == "" {
      assert Trim(s) == "";
    }
  }

  /** Text made only of whitespace is 'unknown'. */
  lemma BlankIsUnknown(s: string)
    requires AllWhitespace(s)
    ensures ParseFollowers(Str(s)) == Unknown
  {
    TrimEmpty(s);
    FollowersOfText(s);
  }

  lemma CleanConcat(a: string, b: string)
    ensures Clean(a + b) == Clean(a) + Clean(b)
  {
    CleanIgnoresTrim(a + b);
    CleanIgnoresTrim(a);
    CleanIgnoresTrim(b);
    ToUpperConcat(a, b);
    RemoveWhitespaceConcat(ToUpper(a), ToUpper(b));
  }

  /** Inserting a whitespace character anywhere changes nothing. */
  lemma WhitespaceInsertion(a: string, w: char, b: string)
    requires IsWhitespace(w)
    ensures ParseFollowers(Str(a + [w] + b)) == ParseFollowers(Str(a + b))
  {
    CleanConcat(a + [w], b);
    CleanConcat(a, [w]);
    CleanConcat(a, b);
    assert Clean([w]) == [] by {
      CleanIgnoresTrim([w]);
      assert ToUpper([w]) == [w];
    }
    assert Clean(a + [w] + b) == Clean(a + b);
    FollowersOfText(a + [w] + b);
    FollowersOfText(a + b);
  }

  /** Two cleaned texts that end in the same character and agree, commas dropped, on
      everything before it parse alike. */
  lemma SameLastSameRest(x: string, y: string)
    requires x != [] && y != [] && x[|x| - 1] == y[|y| - 1]
    requires RemoveCommas(x[..|x| - 1]) == RemoveCommas(y[..|y| - 1])
    ensures ParseCleaned(x) == ParseCleaned(y)
  {
    var c := x[|x| - 1];
    if SuffixScale(c).None? {
      assert x == x[..|x| - 1] + [c];
      assert y == y[..|y| - 1] + [c];
      RemoveCommasConcat(x[..|x| - 1], [c]);
      RemoveCommasConcat(y[..|y| - 1], [c]);
    }
  }

  /** A comma before the last character of cleaned text changes nothing. */
  lemma CommaInCleaned(x: string, y: string)
    requires y != []
    ensures ParseCleaned(x + "," + y) == ParseCleaned(x + y)
  {
    var y' := y[..|y| - 1];
    assert (x + "," + y)[..|x| + 1 + |y'|] == x + "," + y';
    assert (x + y)[..|x| + |y'|] == x + y';
    RemoveCommasConcat(x + ",", y');
    RemoveCommasConcat(x, ",");
    RemoveCommasConcat(x, y');
    assert RemoveCommas(",") == [];
    SameLastSameRest(x + "," + y, x + y);
  }

  /** A comma anywhere before the last non-blank character changes nothing:
      "12,540" parses like "12540". */
  lemma CommaInsertion(a: string, b: string)
    requires Clean(b) != []
    ensures ParseFollowers(Str(a + "," + b)) == ParseFollowers(Str(a + b))
  {
    CleanConcat(a + ",", b);
    CleanConcat(a, ",");
    CleanConcat(a, b);
    assert Clean(",") == "," by {
      CleanIgnoresTrim(",");
      assert ToUpper(",") == ",";
    }
    assert Clean(a + "," + b) == Clean(a) + "," + Clean(b);
    CommaInCleaned(Clean(a), Clean(b));
    FollowersOfText(a + "," + b);
    FollowersOfText(a + b);
  }

  /** An unsigned literal is missing exactly when `body` starts with neither a digit nor a
      point followed by a digit. */
  lemma ParseUnsignedNaN(body: string)
    ensures ParseUnsigned(body).None? <==>
      !((|body| > 0 && IsDigit(body[0])) || (|body| > 1 && body[0] == '.' && IsDigit(body[1])))
  {
    var i := LeadingDigits(body);
    if i == 0 {
      assert body[i..] == body;
      if |body| > 1 && body[0] == '.' {
        assert body[1..][0] == body[1];
      }
    }
  }

  /** `parseFloat` is NaN exactly when, after leading whitespace and an optional sign,
      the text starts with neither a digit nor a point followed by a digit. */
  lemma ParseFloatNaN(text: string)
    ensures ParseFloat(text).None? <==> !StartsNumber(TrimStart(text))
  {
    var s := TrimStart(text);
    ParseUnsignedNaN(if |s| > 0 && (s[0] == '+' || s[0] == '-') then s[1..] else s);
  }

  /** `parseScaled` is 'unknown' exactly when `parseFloat` is NaN, and otherwise the floor. */
  lemma ParseScaledMeaning(part: string, k: nat)
    ensures ParseScaled(part, k) == Unknown <==> ParseFloat(RemoveCommas(part)).None?
    ensures ParseScaled(part, k).Count? ==>
      IsFloorOf(ParseScaled(part, k).n, Shift(ParseFloat(RemoveCommas(part)).value, k))
  {
  }

  /** The dispatch on cleaned text: a trailing K/M/B selects the power of ten `k` and is
      taken off; the result is 'unknown' exactly when the text is empty or no number
      starts the rest (commas dropped), and otherwise it is the floor of that number
      times `10^k`. */
  lemma ParseCleanedMeaning(cleaned: string)
    requires NoWhitespace(cleaned)
    ensures var scale := if cleaned == [] then None else SuffixScale(cleaned[|cleaned| - 1]);
      var part := if scale.Some? then cleaned[..|cleaned| - 1] else cleaned;
      var k := scale.GetOr(0);
      && (ParseCleaned(cleaned) == Unknown <==>
            cleaned == [] || !StartsNumber(RemoveCommas(part)))
      && (ParseCleaned(cleaned).Count? ==>
            IsFloorOf(ParseCleaned(cleaned).n, Shift(ParseFloat(RemoveCommas(part)).value, k)))
  {
    if cleaned != [] {
      var scale := SuffixScale(cleaned[|cleaned| - 1]);
      var n := if scale.Some? then |cleaned| - 1 else |cleaned|;
      var part := cleaned[..n];
      var k := scale.GetOr(0);
      assert cleaned[..|cleaned|] == cleaned;
      assert ParseCleaned(cleaned) == ParseScaled(part, k);
      ParseScaledMeaning(part, k);
      assert NoWhitespace(part);
      RemoveCommasKeepsNoWhitespace(part);
      TrimStartOfNoWhitespace(RemoveCommas(part));
      ParseFloatNaN(RemoveCommas(part));
    }
  }

  /** What a result means, for any text: the meaning above, applied to its cleaned form. */
  lemma ParseFollowersMeaning(s: string)
    ensures var cleaned := Clean(s);
      var scale := if cleaned == [] then None else SuffixScale(cleaned[|cleaned| - 1]);
      var part := if scale.Some? then cleaned[..|cleaned| - 1] else cleaned;
      var k := scale.GetOr(0);
      && (ParseFollowers(Str(s)) == Unknown <==>
            cleaned == [] || !StartsNumber(RemoveCommas(part)))
      && (ParseFollowers(Str(s)).Count? ==>
            IsFloorOf(ParseFollowers(Str(s)).n, Shift(ParseFloat(RemoveCommas(part)).value, k)))
  {
    FollowersOfText(s);
    RemoveWhitespaceLeavesNone(ToUpper(Trim(s)));
    ParseCleanedMeaning(Clean(s));
  }

  /** Text with no whitespace and no lower-case ASCII letter is its own cleaned form. */
  lemma CleanOfPlain(s: string)
    requires forall i :: 0 <= i < |s| ==> !IsWhitespace(s[i]) && !('a' <= s[i] <= 'z')
    ensures Clean(s) == s
  {
    TrimStartOfNoWhitespace(s);
    assert TrimEnd(s) == s;
    assert ToUpper(s) == s;
    RemoveWhitespaceKeeps(s);
  }

  /** Text starting with a digit has neither whitespace nor a sign to skip. */
  lemma ParseFloatOfUnsigned(s: string)
    requires |s| > 0 && IsDigit(s[0])
    ensures ParseFloat(s) == ParseUnsigned(s)
  {
    TrimStartOfNoWhitespace(s);
  }

  /** The integer digits of an unsigned literal are its whole leading run of digits. */
  lemma ParseUnsignedSplit(d: string, rest: string)
    requires AllDigits(d) && (rest == [] || !IsDigit(rest[0]))
    ensures ParseUnsigned(d + rest) == ParseFraction(d, rest)
  {
    LeadingDigitsOf(d, rest);
    assert (d + rest)[..|d|] == d && (d + rest)[|d|..] == rest;
  }

  /** Fraction digits ending the text. */
  lemma PointFractionOfDigits(d: string, f: string)
    requires AllDigits(f) && |d| + |f| > 0
    ensures PointFraction(d, f) == Some(Decimal(DigitsValue(d + f), -|f|))
  {
    assert LeadingDigits(f) == |f| by {
      assert f + [] == f;
      LeadingDigitsOf(f, []);
    }
    assert f[..|f|] == f && f[|f|..] == [];
    assert ExponentValue([]) == 0;
  }

  /** A point and fraction digits ending the text. */
  lemma ParseFractionPoint(d: string, f: string)
    requires AllDigits(f) && |d| + |f| > 0
    ensures ParseFraction(d, "." + f) == Some(Decimal(DigitsValue(d + f), -|f|))
  {
    assert ("." + f)[1..] == f;
    PointFractionOfDigits(d, f);
  }

  /** A digit string reads as its integer value. */
  lemma ParseFloatOfDigits(d: string)
    requires d != [] && AllDigits(d)
    ensures ParseFloat(d) == Some(Decimal(DigitsValue(d), 0))
  {
    ParseFloatOfUnsigned(d);
    ParseUnsignedSplit(d, []);
    assert d + [] == d;
  }

  /** Digits, a point and digits read as the exact decimal they spell. */
  lemma ParseFloatOfDecimal(d: string, f: string)
    requires d != [] && AllDigits(d) && AllDigits(f)
    ensures ParseFloat(d + "." + f) == Some(Decimal(DigitsValue(d + f), -|f|))
  {
    var s := d + "." + f;
    assert s[0] == d[0];
    ParseFloatOfUnsigned(s);
    ConcatAssoc(d, ".", f);
    ParseUnsignedSplit(d, "." + f);
    ParseFractionPoint(d, f);
  }

  /** After the point, the fraction digits end where `rest` begins, and `rest` holds no
      exponent. */
  lemma {:induction false} PointFractionOfRest(d: string, f: string, rest: string)
    requires AllDigits(f) && |d| + |f| > 0
    requires rest == [] || (!IsDigit(rest[0]) && rest[0] != 'e' && rest[0] != 'E')
    ensures PointFraction(d, f + rest) == Some(Decimal(DigitsValue(d + f), -|f|))
  {
    LeadingDigitsOf(f, rest);
    assert (f + rest)[..|f|] == f && (f + rest)[|f|..] == rest;
    assert ExponentValue(rest) == 0;
  }

  /** The unsigned literal stops after the fraction digits when what follows can continue
      neither them nor an exponent. */
  lemma {:induction false} UnsignedLongestPrefix(d: string, f: string, rest: string)
    requires AllDigits(d) && AllDigits(f) && |d| + |f| > 0
    requires rest == [] || (!IsDigit(rest[0]) && rest[0] != 'e' && rest[0] != 'E')
    ensures ParseUnsigned(d + ("." + f + rest)) == Some(Decimal(DigitsValue(d + f), -|f|))
  {
    var x := "." + f + rest;
    assert x[0] == '.' && x[1..] == f + rest;
    ParseUnsignedSplit(d, x);
    assert ParseFraction(d, x) == PointFraction(d, f + rest);
    PointFractionOfRest(d, f, rest);
  }

  /** The literal is the longest prefix: text after the fraction digits that can continue
      neither them nor an exponent is ignored, so "1.5.2" reads as 1.5. */
  lemma ParseFloatLongestPrefix(d: string, f: string, rest: string)
    requires d != [] && AllDigits(d) && AllDigits(f)
    requires rest == [] || (!IsDigit(rest[0]) && rest[0] != 'e' && rest[0] != 'E')
    ensures ParseFloat(d + "." + f + rest) == ParseFloat(d + "." + f)
  {
    var s := d + "." + f + rest;
    assert s == d + ("." + f + rest) && s[0] == d[0];
    ParseFloatOfUnsigned(s);
    UnsignedLongestPrefix(d, f, rest);
    ParseFloatOfDecimal(d, f);
  }

  lemma ExampleSecondPoint()
    ensures ParseFloat("1.5.2") == Some(Decimal(15, -1))
  {
    assert "1.5.2" == "1" + "." + "5" + ".2";
    ParseFloatLongestPrefix("1", "5", ".2");
    ParseFloatOfDecimal("1", "5");
    assert DigitsValue("1" + "5") == 15;
  }

  /** The value of a complete exponent part: a marker, an optional sign and digits. */
  lemma ExponentOf(marker: char, sign: string, e: string)
    requires e != [] && AllDigits(e)
    requires (marker == 'e' || marker == 'E') && (sign == "" || sign == "+" || sign == "-")
    ensures ExponentValue([marker] + sign + e) == if sign == "-" then -(DigitsValue(e) as int) else DigitsValue(e)
  {
    var t := ([marker] + sign + e)[1..];
    assert t == sign + e;
    var u := if |t| > 0 && (t[0] == '+' || t[0] == '-') then t[1..] else t;
    assert u == e by {
      if sign == "" {
        assert t == e && !(e[0] == '+' || e[0] == '-');
      } else {
        assert t[1..] == e;
      }
    }
    assert LeadingDigits(e) == |e| && e[..|e|] == e by {
      assert e + [] == e;
      LeadingDigitsOf(e, []);
    }
    assert (t[0] == '-') == (sign == "-");
  }

  /** Digits, an exponent marker, an optional sign and digits: `d * 10^e` exactly. */
  lemma ParseFloatOfExponent(d: string, marker: char, sign: string, e: string)
    requires d != [] && AllDigits(d) && e != [] && AllDigits(e)
    requires (marker == 'e' || marker == 'E') && (sign == "" || sign == "+" || sign == "-")
    ensures ParseFloat(d + [marker] + sign + e) ==
      Some(Decimal(DigitsValue(d), if sign == "-" then -(DigitsValue(e) as int) else DigitsValue(e)))
  {
    var rest := [marker] + sign + e;
    var s := d + rest;
    assert s == d + [marker] + sign + e && s[0] == d[0];
    ParseFloatOfUnsigned(s);
    ParseUnsignedSplit(d, rest);
    ExponentOf(marker, sign, e);
  }

  /** A sign in front of a literal: '-' negates it and '+' changes nothing. */
  lemma ParseFloatSign(body: string)
    requires |body| > 0 && (IsDigit(body[0]) || body[0] == '.')
    ensures ParseFloat("-" + body) ==
      if ParseFloat(body).None? then None
      else Some(Decimal(-ParseFloat(body).value.mantissa, ParseFloat(body).value.exponent))
    ensures ParseFloat("+" + body) == ParseFloat(body)
  {
    TrimStartOfNoWhitespace(body);
    TrimStartOfNoWhitespace("-" + body);
    TrimStartOfNoWhitespace("+" + body);
    assert ("-" + body)[1..] == body && ("+" + body)[1..] == body;
  }

  lemma FloatExponent()
    ensures ParseFloat("1E3") == Some(Decimal(1, 3))
  {
    assert "1E3" == "1" + ['E'] + "" + "3";
    ParseFloatOfExponent("1", 'E', "", "3");
    assert DigitsValue("1") == 1 && DigitsValue("3") == 3;
  }

  lemma CleanedExponent()
    ensures ParseCleaned("1E3K") == Count(1000000)
  {
    assert "1E3K" == "1E3" + ['K'];
    CleanedWithSuffix("1E3", 'K', 3);
    assert RemoveCommas("1E3") == "1E3" by {
      RemoveCommasKeeps("1E3");
    }
    FloatExponent();
    assert Pow10(6) == 1000000;
  }

  /** A trailing suffix letter selects its power of ten and is taken off. */
  lemma CleanedWithSuffix(p: string, c: char, k: nat)
    requires SuffixScale(c) == Some(k)
    ensures ParseCleaned(p + [c]) == ParseScaled(p, k)
  {
    assert (p + [c])[..|p|] == p;
  }

  /** Digits, a point, digits and a suffix letter, such as "2.1K": the exact value, times
      the suffix's power of ten, rounded down. */
  lemma SuffixedDecimal(d: string, f: string, c: char, k: nat)
    requires d != [] && AllDigits(d) && AllDigits(f) && SuffixScale(c) == Some(k)
    ensures ParseCleaned(d + "." + f + [c]) == Count(Floor(Decimal(DigitsValue(d + f), k - |f|)))
  {
    var p := d + "." + f;
    CleanedWithSuffix(p, c, k);
    assert RemoveCommas(p) == p by {
      RemoveCommasConcat(d + ".", f);
      RemoveCommasConcat(d, ".");
      NoCommaInDigits(d);
      NoCommaInDigits(f);
    }
    ParseFloatOfDecimal(d, f);
    var exact := Decimal(DigitsValue(d + f), -|f|);
    assert ParseFloat(RemoveCommas(p)) == Some(exact);
    assert Shift(exact, k) == Decimal(DigitsValue(d + f), k - |f|);
  }

  /** A digit string with commas in it reads as its digits. */
  lemma CommaDigits(x: string, d: string)
    requires RemoveCommas(x) == d && d != [] && AllDigits(d)
    ensures ParseCleaned(x) == Count(DigitsValue(d))
  {
    assert x != [];
    var c := x[|x| - 1];
    var p := x[..|x| - 1];
    assert x == p + [c];
    RemoveCommasConcat(p, [c]);
    if c != ',' {
      assert RemoveCommas([c]) == [c];
      assert d[|d| - 1] == c;
    }
    assert SuffixScale(c).None?;
    assert ParseCleaned(x) == ParseScaled(x, 0);
    ParseFloatOfDigits(d);
  }

  /** For text with no whitespace and no lower-case ASCII letter the dispatch sees the text
      itself. */
  lemma FollowersOfPlain(s: string)
    requires forall i :: 0 <= i < |s| ==> !IsWhitespace(s[i]) && !('a' <= s[i] <= 'z')
    ensures ParseFollowers(Str(s)) == ParseCleaned(s)
  {
    CleanOfPlain(s);
    FollowersOfText(s);
  }

  lemma CleanedThousands()
    ensures ParseCleaned("2.1K") == Count(2100)
  {
    assert "2.1K" == "2" + "." + "1" + ['K'];
    SuffixedDecimal("2", "1", 'K', 3);
    assert DigitsValue("2" + "1") == 21;
    assert Pow10(2) == 100;
  }

  lemma CleanedMillions()
    ensures ParseCleaned("3.4M") == Count(3400000)
  {
    assert "3.4M" == "3" + "." + "4" + ['M'];
    SuffixedDecimal("3", "4", 'M', 6);
    assert DigitsValue("3" + "4") == 34;
    assert Pow10(5) == 100000;
  }

  lemma {:induction false} NoCommaInDigits(a: string)
    requires AllDigits(a)
    ensures RemoveCommas(a) == a
  {
    assert forall i :: 0 <= i < |a| ==> a[i] != ',' by {
      forall i | 0 <= i < |a| ensures a[i] != ',' {
        assert IsDigit(a[i]);
      }
    }
    RemoveCommasKeeps(a);
  }

  lemma DigitsConcat(a: string, b: string)
    requires AllDigits(a) && AllDigits(b)
    ensures AllDigits(a + b)
  {
    forall i | 0 <= i < |a + b| ensures IsDigit((a + b)[i]) {
      if i < |a| {
        assert (a + b)[i] == a[i];
      } else {
        assert (a + b)[i] == b[i - |a|];
      }
    }
  }

  /** Digits, a comma and digits, such as "12,540": the digits without the comma. */
  lemma GroupedDigits(a: string, b: string)
    requires a != [] && b != [] && AllDigits(a) && AllDigits(b)
    ensures ParseCleaned(a + "," + b) == Count(DigitsValue(a + b))
  {
    assert RemoveCommas(a + "," + b) == a + b by {
      RemoveCommasConcat(a + ",", b);
      RemoveCommasConcat(a, ",");
      assert RemoveCommas(",") == [];
      NoCommaInDigits(a);
      NoCommaInDigits(b);
      assert a + [] == a;
    }
    DigitsConcat(a, b);
    CommaDigits(a + "," + b, a + b);
  }

  lemma CleanedCommas()
    ensures ParseCleaned("12,540") == Count(12540)
  {
    assert "12,540" == "12" + "," + "540";
    GroupedDigits("12", "540");
    var d := "12" + "540";
    assert d[..4] == "1254" && d[4] == '0';
    assert "1254"[..3] == "125" && "125"[..2] == "12" && "12"[..1] == "1";
    assert DigitsValue("1") == 1;
    assert DigitsValue("12") == 12;
    assert DigitsValue("125") == 125;
    assert DigitsValue("1254") == 1254;
  }

  lemma CleanedCommasSmall()
    ensures ParseCleaned("1,204") == Count(1204)
  {
    assert "1,204" == "1" + "," + "204";
    GroupedDigits("1", "204");
    var d := "1" + "204";
    assert d[..3] == "120" && d[3] == '4';
    assert "120"[..2] == "12" && "12"[..1] == "1";
    assert DigitsValue("1") == 1;
    assert DigitsValue("12") == 12;
    assert DigitsValue("120") == 120;
  }

  lemma CleanedSuffixOnly()
    ensures ParseCleaned("K") == Unknown
  {
    assert "K" == [] + ['K'];
    CleanedWithSuffix([], 'K', 3);
    ParseFloatNaN([]);
  }

  lemma CleanedLetters()
    ensures ParseCleaned("ABC") == Unknown
  {
    RemoveCommasKeeps("ABC");
    ParseFloatNaN("ABC");
  }

  /** "2.1K" is 2100. */
  lemma ExampleThousands()
    ensures ParseFollowers(Str("2.1K")) == Count(2100)
  {
    assert ParseFollowers(Str("2.1K")) == ParseCleaned("2.1K") by {
      FollowersOfPlain("2.1K");
    }
    CleanedThousands();
  }

  /** "3.4M" is 3400000. */
  lemma ExampleMillions()
    ensures ParseFollowers(Str("3.4M")) == Count(3400000)
  {
    assert ParseFollowers(Str("3.4M")) == ParseCleaned("3.4M") by {
      FollowersOfPlain("3.4M");
    }
    CleanedMillions();
  }

  /** "12,540" is 12540. */
  lemma ExampleCommas()
    ensures ParseFollowers(Str("12,540")) == Count(12540)
  {
    assert ParseFollowers(Str("12,540")) == ParseCleaned("12,540") by {
      FollowersOfPlain("12,540");
    }
    CleanedCommas();
  }

  /** "1,204" is 1204. */
  lemma ExampleCommasSmall()
    ensures ParseFollowers(Str("1,204")) == Count(1204)
  {
    assert ParseFollowers(Str("1,204")) == ParseCleaned("1,204") by {
      FollowersOfPlain("1,204");
    }
    CleanedCommasSmall();
  }

  /** "K" alone is 'unknown'. */
  lemma ExampleSuffixOnly()
    ensures ParseFollowers(Str("K")) == Unknown
  {
    assert ParseFollowers(Str("K")) == ParseCleaned("K") by {
      FollowersOfPlain("K");
    }
    CleanedSuffixOnly();
  }

  /** "ABC" is 'unknown'. */
  lemma ExampleLetters()
    ensures ParseFollowers(Str("ABC")) == Unknown
  {
    assert ParseFollowers(Str("ABC")) == ParseCleaned("ABC") by {
      FollowersOfPlain("ABC");
    }
    CleanedLetters();
  }

  /** An exponent before a suffix: "1E3K" is 1000 thousands. */
  lemma ExampleExponent()
    ensures ParseFollowers(Str("1E3K")) == Count(1000000)
  {
    assert ParseFollowers(Str("1E3K")) == ParseCleaned("1E3K") by {
      FollowersOfPlain("1E3K");
    }
    CleanedExponent();
  }
}
