/** The string operations the services rely on: JavaScript's `trim`, `toLowerCase`,
    `startsWith`, `Array.prototype.join`, and decimal rendering of a number. */
module Text {

  /** The code points `String.prototype.trim` strips: ECMAScript's WhiteSpace and LineTerminator sets. */
  predicate IsSpace(c: char) {
    || c == ' ' || c == '\t' || c == '\n' || c == '\r' || c == '\U{000B}' || c == '\U{000C}'
    || c == '\U{00A0}' || c == '\U{1680}' || ('\U{2000}' <= c <= '\U{200A}')
    || c == '\U{2028}' || c == '\U{2029}' || c == '\U{202F}' || c == '\U{205F}'
    || c == '\U{3000}' || c == '\U{FEFF}'
  }

  predicate AllSpace(s: string) {
    forall i :: 0 <= i < |s| ==> IsSpace(s[i])
  }

  /** `trimStart`: strips leading white space. */
  function TrimStart(s: string): string {
    if s != [] && IsSpace(s[0]) then TrimStart(s[1..]) else s
  }

  /** `trimEnd`: strips trailing white space. */
  function TrimEnd(s: string): string {
    if s != [] && IsSpace(s[|s| - 1]) then TrimEnd(s[..|s| - 1]) else s
  }

  /** `s.trim()`. */
  function Trim(s: string): string {
    TrimEnd(TrimStart(s))
  }

  /** What `trimStart` removes is white space, and what it keeps is a suffix that does not start
      with white space. */
  lemma {:induction false} TrimStartShape(s: string)
    ensures |TrimStart(s)| <= |s| && TrimStart(s) == s[|s| - |TrimStart(s)|..]
    ensures AllSpace(s[..|s| - |TrimStart(s)|])
    ensures TrimStart(s) == [] || !IsSpace(TrimStart(s)[0])
  {
    if s != [] && IsSpace(s[0]) {
      TrimStartShape(s[1..]);
      var r := TrimStart(s[1..]);
      assert s[1..][|s| - 1 - |r|..] == s[|s| - |r|..];
      var dropped := s[..|s| - |r|];
      assert dropped == [s[0]] + s[1..][..|s| - 1 - |r|];
      AllSpaceFirst(dropped);
    }
  }

  /** What `trimEnd` removes is white space, and what it keeps is a prefix that does not end
      with white space. */
  lemma {:induction false} TrimEndShape(s: string)
    ensures |TrimEnd(s)| <= |s| && TrimEnd(s) == s[..|TrimEnd(s)|]
    ensures AllSpace(s[|TrimEnd(s)|..])
    ensures TrimEnd(s) == [] || !IsSpace(TrimEnd(s)[|TrimEnd(s)| - 1])
  {
    if s != [] && IsSpace(s[|s| - 1]) {
      var init := s[..|s| - 1];
      TrimEndShape(init);
      var r := TrimEnd(init);
      assert init[..|r|] == s[..|r|];
      forall i | 0 <= i < |s| - |r|
        ensures IsSpace(s[|r|..][i])
      {
        if i < |s| - 1 - |r| {
          assert s[|r|..][i] == init[|r|..][i];
        }
      }
    }
  }

  /** `trim` returns a string no longer than its input, with white space at neither end. */
  lemma TrimShape(s: string)
    ensures |Trim(s)| <= |s|
    ensures Trim(s) == [] || (!IsSpace(Trim(s)[0]) && !IsSpace(Trim(s)[|Trim(s)| - 1]))
  {
    TrimStartShape(s);
    TrimEndShape(TrimStart(s));
    if Trim(s) != [] {
      assert Trim(s)[0] == TrimStart(s)[0];
    }
  }

  /** A string trims to nothing exactly when it is all white space. */
  lemma TrimEmptyIffAllSpace(s: string)
    ensures Trim(s) == [] <==> AllSpace(s)
  {
    var t := TrimStart(s);
    TrimStartShape(s);
    TrimEndShape(t);
    if Trim(s) == [] {
      assert t[0..] == t;
      assert s == s[..|s| - |t|] + t;
      AllSpaceConcat(s[..|s| - |t|], t);
    } else if AllSpace(s) {
      TrimStartAllSpace(s);
    }
  }

  lemma {:induction false} TrimStartPadded(pre: string, s: string)
    requires AllSpace(pre)
    ensures TrimStart(pre + s) == TrimStart(s)
  {
    if pre != [] {
      assert (pre + s)[1..] == pre[1..] + s;
      TrimStartPadded(pre[1..], s);
    } else {
      assert pre + s == s;
    }
  }

  lemma {:induction false} TrimEndPadded(s: string, post: string)
    requires AllSpace(post)
    ensures TrimEnd(s + post) == TrimEnd(s)
  {
    if post != [] {
      assert (s + post)[..|s + post| - 1] == s + post[..|post| - 1];
      TrimEndPadded(s, post[..|post| - 1]);
    } else {
      assert s + post == s;
    }
  }

  /** Trimming the start of a concatenation: white space alone in front is skipped entirely,
      otherwise the trimmed front is kept with the rest behind it. */
  lemma {:induction false} TrimStartAppend(s: string, post: string)
    ensures AllSpace(s) ==> TrimStart(s + post) == TrimStart(post)
    ensures !AllSpace(s) ==> TrimStart(s + post) == TrimStart(s) + post
  {
    if s == [] {
      assert s + post == post;
    } else {
      AllSpaceFirst(s);
      assert (s + post)[0] == s[0];
      if IsSpace(s[0]) {
        assert (s + post)[1..] == s[1..] + post;
        TrimStartAppend(s[1..], post);
      }
    }
  }

  /** A non-empty string is all white space exactly when its first character and the rest are. */
  lemma AllSpaceFirst(s: string)
    requires s != []
    ensures AllSpace(s) <==> IsSpace(s[0]) && AllSpace(s[1..])
  {
    if IsSpace(s[0]) && AllSpace(s[1..]) {
      forall i | 1 <= i < |s|
        ensures IsSpace(s[i])
      {
        assert s[i] == s[1..][i - 1];
      }
    }
  }

  /** A string of white space alone trims at the start to nothing. */
  lemma {:induction false} TrimStartAllSpace(s: string)
    requires AllSpace(s)
    ensures TrimStart(s) == []
  {
    if s != [] {
      AllSpaceFirst(s);
      TrimStartAllSpace(s[1..]);
    }
  }

  /** Two runs of white space make a run of white space. */
  lemma AllSpaceConcat(a: string, b: string)
    requires AllSpace(a) && AllSpace(b)
    ensures AllSpace(a + b)
  {
    forall i | 0 <= i < |a + b|
      ensures IsSpace((a + b)[i])
    {
      if i >= |a| {
        assert (a + b)[i] == b[i - |a|];
      }
    }
  }

  /** `trim` is idempotent. */
  lemma TrimIdempotent(s: string)
    ensures Trim(Trim(s)) == Trim(s)
  {
    var t := Trim(s);
    TrimShape(s);
    if t != [] {
      assert TrimStart(t) == t;
      assert TrimEnd(t) == t;
    }
  }

  /** Outer white space of any length does not change what `trim` returns. */
  lemma TrimIgnoresPadding(pre: string, s: string, post: string)
    requires AllSpace(pre) && AllSpace(post)
    ensures Trim(pre + s + post) == Trim(s)
  {
    assert pre + s + post == pre + (s + post);
    TrimStartPadded(pre, s + post);
    TrimStartAppend(s, post);
    if AllSpace(s) {
      TrimStartAllSpace(post);
      TrimStartAllSpace(s);
    } else {
      TrimEndPadded(TrimStart(s), post);
    }
  }

  /** `toLowerCase` on one code point, for the capitals of the Latin and Cyrillic scripts the
      directory's queries are written in: ASCII and Latin-1 letters, the basic Cyrillic block
      (Ё and the other U+0400..U+040F capitals included) and the Mongolian Ү and Ө. Every
      lower-case result lies outside the mapped ranges, and white space is left alone. */
  function LowerChar(c: char): char {
    if 'A' <= c <= 'Z' then (c as int + 0x20) as char
    else if ('\U{00C0}' <= c <= '\U{00DE}') && c != '\U{00D7}' then (c as int + 0x20) as char
    else if '\U{0410}' <= c <= '\U{042F}' then (c as int + 0x20) as char
    else if '\U{0400}' <= c <= '\U{040F}' then (c as int + 0x50) as char
    else if c == '\U{04AE}' then '\U{04AF}'
    else if c == '\U{04E8}' then '\U{04E9}'
    else c
  }

  /** A lower-case letter is its own lower case. */
  lemma LowerCharIdempotent(c: char)
    ensures LowerChar(LowerChar(c)) == LowerChar(c)
  {
  }

  /** `s.toLowerCase()`: same length. */
  function ToLower(s: string): (r: string)
    ensures |r| == |s|
  {
    if s == [] then [] else [LowerChar(s[0])] + ToLower(s[1..])
  }

  /** `toLowerCase` maps the string code point by code point. */
  lemma {:induction false} ToLowerPointwise(s: string)
    ensures forall i :: 0 <= i < |s| ==> ToLower(s)[i] == LowerChar(s[i])
  {
    if s != [] {
      ToLowerPointwise(s[1..]);
    }
  }

  /** Lower-casing twice is lower-casing once. */
  lemma ToLowerIdempotent(s: string)
    ensures ToLower(ToLower(s)) == ToLower(s)
  {
    ToLowerPointwise(s);
    ToLowerPointwise(ToLower(s));
    forall i | 0 <= i < |s|
      ensures ToLower(ToLower(s))[i] == ToLower(s)[i]
    {
      LowerCharIdempotent(s[i]);
    }
  }

  lemma ToLowerConcat(a: string, b: string)
    ensures ToLower(a + b) == ToLower(a) + ToLower(b)
  {
    ToLowerPointwise(a + b);
    ToLowerPointwise(a);
    ToLowerPointwise(b);
  }

  lemma LowerCharKeepsSpace(c: char)
    ensures IsSpace(LowerChar(c)) <==> IsSpace(c)
  {
  }

  lemma {:induction false} ToLowerTrimStart(s: string)
    ensures ToLower(TrimStart(s)) == TrimStart(ToLower(s))
  {
    if s != [] {
      var l := ToLower(s);
      assert l == [LowerChar(s[0])] + ToLower(s[1..]);
      assert l[0] == LowerChar(s[0]) && l[1..] == ToLower(s[1..]);
      LowerCharKeepsSpace(s[0]);
      ToLowerTrimStart(s[1..]);
    }
  }

  lemma {:induction false} ToLowerTrimEnd(s: string)
    ensures ToLower(TrimEnd(s)) == TrimEnd(ToLower(s))
  {
    if s != [] {
      var l := ToLower(s);
      ToLowerConcat(s[..|s| - 1], [s[|s| - 1]]);
      assert s[..|s| - 1] + [s[|s| - 1]] == s;
      assert l[..|s| - 1] == ToLower(s[..|s| - 1]);
      LowerCharKeepsSpace(s[|s| - 1]);
      ToLowerTrimEnd(s[..|s| - 1]);
    }
  }

  /** Lower-casing never creates or removes white space, so it commutes with `trim`. */
  lemma ToLowerTrimCommute(s: string)
    ensures ToLower(Trim(s)) == Trim(ToLower(s))
  {
    ToLowerTrimStart(s);
    ToLowerTrimEnd(TrimStart(s));
  }

  /** `s.toLowerCase().trim()`, the normal form both search services build their cache keys from. */
  function Normalize(s: string): string {
    Trim(ToLower(s))
  }

  /** A Mongolian place name typed in capitals and in lower case normalizes alike. */
  lemma CyrillicQueriesFoldCase()
    ensures Normalize("\U{0422}\U{04E8}\U{0412}") == Normalize("\U{0442}\U{04E9}\U{0432}")
  {
    var upper, lower := "\U{0422}\U{04E8}\U{0412}", "\U{0442}\U{04E9}\U{0432}";
    ToLowerPointwise(upper);
    assert ToLower(upper) == lower;
    ToLowerIdempotent(upper);
  }

  /** Two queries have the same normal form exactly when they agree once trimmed and lower-cased:
      queries that differ only in letter case or in outer white space share a normal form. */
  lemma NormalizeIgnoresCaseAndPadding(q: string, pre: string, post: string)
    requires AllSpace(pre) && AllSpace(post)
    ensures Normalize(pre + q + post) == Normalize(q)
    ensures Normalize(ToLower(q)) == Normalize(q)
  {
    ToLowerTrimCommute(pre + q + post);
    ToLowerTrimCommute(q);
    ToLowerTrimCommute(ToLower(q));
    TrimIgnoresPadding(pre, q, post);
    ToLowerIdempotent(q);
  }

  /** The normal form is as long as the trimmed query, so it is empty exactly when the query is
      all white space. */
  lemma NormalizeEmptyIffBlank(q: string)
    ensures |Normalize(q)| == |Trim(q)|
    ensures Normalize(q) == "" <==> AllSpace(q)
  {
    ToLowerTrimCommute(q);
    TrimEmptyIffAllSpace(q);
  }

  /** `s.startsWith(p)`. */
  predicate StartsWith(s: string, p: string) {
    |p| <= |s| && s[..|p|] == p
  }

  /** Strings behind a common prefix are equal exactly when the strings themselves are. */
  lemma PrefixCancels(prefix: string, a: string, b: string)
    ensures prefix + a == prefix + b <==> a == b
  {
    if prefix + a == prefix + b {
      assert (prefix + a)[|prefix|..] == a;
      assert (prefix + b)[|prefix|..] == b;
    }
  }

  /** `parts.join(sep)`. */
  function Join(parts: seq<string>, sep: string): string {
    if parts == [] then ""
    else if |parts| == 1 then parts[0]
    else parts[0] + sep + Join(parts[1..], sep)
  }

  function TotalLength(parts: seq<string>): nat {
    if parts == [] then 0 else |parts[0]| + TotalLength(parts[1..])
  }

  /** A join spends exactly one separator between each pair of neighbouring parts. */
  lemma {:induction false} JoinLength(parts: seq<string>, sep: string)
    ensures parts != [] ==> |Join(parts, sep)| == TotalLength(parts) + (|parts| - 1) * |sep|
    ensures parts == [] ==> Join(parts, sep) == ""
  {
    if |parts| > 1 {
      JoinLength(parts[1..], sep);
    }
  }

  /** Joining parts that are never empty yields the empty string only when there are no parts. */
  lemma {:induction false} JoinEmptyIff(parts: seq<string>, sep: string)
    requires forall i :: 0 <= i < |parts| ==> parts[i] != ""
    ensures Join(parts, sep) == "" <==> parts == []
  {
    if |parts| > 1 {
      assert |Join(parts, sep)| >= |parts[0]|;
    }
  }

  predicate IsDigit(c: char) {
    '0' <= c <= '9'
  }

  predicate AllDigits(s: string) {
    forall i :: 0 <= i < |s| ==> IsDigit(s[i])
  }

  function DigitChar(d: nat): (c: char)
    requires d < 10
    ensures IsDigit(c)
  {
    ('0' as int + d) as char
  }

  /** The decimal numeral JavaScript writes for a non-negative integer `n` in a template literal. */
  function Decimal(n: nat): (r: string)
    ensures r != [] && AllDigits(r)
    ensures |r| == 1 <==> n < 10
  {
    if n < 10 then [DigitChar(n)] else Decimal(n / 10) + [DigitChar(n % 10)]
  }

  /** Reads a run of decimal digits back as a number. */
  function ParseDecimal(s: string): nat
    requires AllDigits(s)
  {
    if s == [] then 0 else ParseDecimal(s[..|s| - 1]) * 10 + (s[|s| - 1] as int - '0' as int)
  }

  /** Reading the numeral back yields the number: distinct numbers get distinct labels. */
  lemma {:induction false} DecimalRoundTrip(n: nat)
    ensures ParseDecimal(Decimal(n)) == n
  {
    if n >= 10 {
      var d := Decimal(n);
      assert d[..|d| - 1] == Decimal(n / 10);
      DecimalRoundTrip(n / 10);
    }
  }

  /** The longest prefix of `s` that is made of digits. */
  function LeadingDigits(s: string): (r: string)
    ensures AllDigits(r) && StartsWith(s, r)
    ensures r == s || !IsDigit(s[|r|])
  {
    if s != [] && IsDigit(s[0]) then [s[0]] + LeadingDigits(s[1..]) else []
  }

  /** A numeral followed by a non-digit is recovered as the leading run of digits. */
  lemma {:induction false} LeadingDigitsOfNumeral(digits: string, rest: string)
    requires AllDigits(digits)
    requires rest == [] || !IsDigit(rest[0])
    ensures LeadingDigits(digits + rest) == digits
  {
    if digits != [] {
      assert (digits + rest)[1..] == digits[1..] + rest;
      LeadingDigitsOfNumeral(digits[1..], rest);
    } else {
      assert digits + rest == rest;
    }
  }
}
