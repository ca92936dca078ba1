/** The string operations the achievement catalog is built from: decimal
    rendering of a tier number, the `toLowerCase().replace(/\s+/g, '_')`
    slug of a title, and `String.prototype.includes`. */
module Strings {

  predicate IsDigit(c: char) {
    '0' <= c <= '9'
  }

  predicate IsDigits(s: string) {
    forall i :: 0 <= i < |s| ==> IsDigit(s[i])
  }

  function DigitChar(d: int): (c: char)
    requires 0 <= d < 10
    ensures IsDigit(c) && c as int - '0' as int == d
  {
    ('0' as int + d) as char
  }

  /** The template-literal rendering `${n}` of a non-negative integer. */
  function Decimal(n: nat): (r: string)
    ensures |r| >= 1 && IsDigits(r)
  {
    if n < 10 then [DigitChar(n)] else Decimal(n / 10) + [DigitChar(n % 10)]
  }

  /** Reads a string of digits back as the number it denotes. */
  function ParseDecimal(s: string): nat
    requires IsDigits(s)
  {
    if s == [] then 0
    else 10 * ParseDecimal(s[..|s| - 1]) + (s[|s| - 1] as int - '0' as int)
  }

  lemma {:induction false} DecimalRoundTrip(n: nat)
    ensures ParseDecimal(Decimal(n)) == n
  {
    if n >= 10 {
      var d := Decimal(n / 10);
      assert Decimal(n) == d + [DigitChar(n % 10)];
      assert (d + [DigitChar(n % 10)])[..|d|] == d;
      DecimalRoundTrip(n / 10);
    }
  }

  /** Distinct numbers render as distinct strings. */
  lemma DecimalInjective(m: nat, n: nat)
    requires Decimal(m) == Decimal(n)
    ensures m == n
  {
    DecimalRoundTrip(m);
    DecimalRoundTrip(n);
  }

  /** An id `prefix_digits` splits back uniquely at its last separator: the
      digits hold no `_`, so the prefixes and the digit strings agree. */
  lemma SeparatedIdSplit(p1: string, d1: string, p2: string, d2: string)
    requires IsDigits(d1) && IsDigits(d2)
    requires p1 + "_" + d1 == p2 + "_" + d2
    ensures p1 == p2 && d1 == d2
  {
    var s := p1 + "_" + d1;
    assert s[|p1|] == '_';
    assert s[|p2|] == '_' by { assert s == p2 + "_" + d2; }
    if |p1| != |p2| {
      assert false;
    }
    assert p1 == s[..|p1|];
    assert p2 == (p2 + "_" + d2)[..|p2|];
    assert d1 == s[|p1| + 1..];
    assert d2 == (p2 + "_" + d2)[|p2| + 1..];
  }

  /** Distinct tier numbers under one prefix give distinct ids. */
  lemma TierIdsDistinct(p: string, m: nat, n: nat)
    requires m != n
    ensures p + "_" + Decimal(m) != p + "_" + Decimal(n)
  {
    if p + "_" + Decimal(m) == p + "_" + Decimal(n) {
      SeparatedIdSplit(p, Decimal(m), p, Decimal(n));
      DecimalInjective(m, n);
    }
  }

  /** Ids built on different prefixes never collide. */
  lemma PrefixedIdsDistinct(p1: string, m: nat, p2: string, n: nat)
    requires p1 != p2
    ensures p1 + "_" + Decimal(m) != p2 + "_" + Decimal(n)
  {
    if p1 + "_" + Decimal(m) == p2 + "_" + Decimal(n) {
      SeparatedIdSplit(p1, Decimal(m), p2, Decimal(n));
    }
  }

  /** `toLowerCase` on one character; only the ASCII capitals are mapped. */
  function LowerChar(c: char): char {
    if 'A' <= c <= 'Z' then c - 'A' + 'a' else c
  }

  function ToLower(s: string): string {
    seq(|s|, i requires 0 <= i < |s| => LowerChar(s[i]))
  }

  /** The characters of the regular-expression class `\s`. */
  predicate IsWhitespace(c: char) {
    c == ' ' || ('\t' <= c <= '\r') || c == '\U{A0}' || c == '\U{1680}' ||
    ('\U{2000}' <= c <= '\U{200A}') || c == '\U{2028}' || c == '\U{2029}' ||
    c == '\U{202F}' || c == '\U{205F}' || c == '\U{3000}' || c == '\U{FEFF}'
  }

  /** `replace(/\s+/g, sep)`: every maximal run of whitespace becomes one
      `sep`. `afterSpace` says whether the text before `s` ended in whitespace,
      so that only the first character of a run is replaced. */
  function ReplaceWhitespaceRuns(s: string, sep: char, afterSpace: bool): (r: string)
    ensures |r| <= |s|
    ensures !IsWhitespace(sep) ==> NoWhitespace(r)
  {
    if s == [] then []
    else if !IsWhitespace(s[0]) then [s[0]] + ReplaceWhitespaceRuns(s[1..], sep, false)
    else if afterSpace then ReplaceWhitespaceRuns(s[1..], sep, true)
    else [sep] + ReplaceWhitespaceRuns(s[1..], sep, true)
  }

  /** The id stem of a titled family: lower-cased, whitespace runs as `_`. */
  function Slug(title: string): (slug: string)
    ensures |slug| <= |title| && NoWhitespace(slug)
  {
    ReplaceWhitespaceRuns(ToLower(title), '_', false)
  }

  predicate NoWhitespace(s: string) {
    forall i :: 0 <= i < |s| ==> !IsWhitespace(s[i])
  }

  lemma ToLowerAppend(a: string, b: string)
    ensures ToLower(a + b) == ToLower(a) + ToLower(b)
  {
  }

  lemma ToLowerKeepsNoWhitespace(s: string)
    requires NoWhitespace(s)
    ensures NoWhitespace(ToLower(s))
  {
  }

  /** A word without whitespace passes through unchanged. */
  lemma {:induction false} WordKept(a: string, rest: string, sep: char, afterSpace: bool)
    requires a != [] && NoWhitespace(a)
    ensures ReplaceWhitespaceRuns(a + rest, sep, afterSpace) == a + ReplaceWhitespaceRuns(rest, sep, false)
  {
    var s := a + rest;
    assert s[0] == a[0] && s[1..] == a[1..] + rest;
    assert !IsWhitespace(s[0]);
    if |a| > 1 {
      WordKept(a[1..], rest, sep, false);
    } else {
      assert a[1..] + rest == rest;
    }
    assert [a[0]] + a[1..] == a;
  }

  /** `"Word Word".toLowerCase().replace(/\s+/g, '_')` is `"word_word"`. */
  lemma TwoWordSlug(a: string, b: string)
    requires a != [] && b != [] && NoWhitespace(a) && NoWhitespace(b)
    ensures Slug(a + " " + b) == ToLower(a) + "_" + ToLower(b)
  {
    var la, lb := ToLower(a), ToLower(b);
    ToLowerAppend(a, " " + b);
    ToLowerAppend(" ", b);
    assert a + " " + b == a + (" " + b);
    ToLowerKeepsNoWhitespace(a);
    ToLowerKeepsNoWhitespace(b);
    assert ToLower(" ") == " ";
    WordKept(la, " " + lb, '_', false);
    var t := " " + lb;
    assert t[0] == ' ' && t[1..] == lb;
    assert ReplaceWhitespaceRuns(t, '_', false) == "_" + ReplaceWhitespaceRuns(lb, '_', true);
    WordKept(lb, [], '_', true);
    assert lb + [] == lb;
    assert ReplaceWhitespaceRuns([], '_', false) == [];
  }

  /** `s.includes(t)`: t occurs in s at some position. Case-sensitive. */
  predicate Contains(s: string, t: string)
    ensures t == [] ==> Contains(s, t)
    ensures Contains(s, t) ==> |t| <= |s|
    decreases |s|
  {
    t <= s || (s != [] && Contains(s[1..], t))
  }

  /** A non-empty needle whose first character never occurs is never found. */
  lemma {:induction false} MissingFirstCharNotContained(s: string, t: string)
    requires t != [] && t[0] !in s
    ensures !Contains(s, t)
  {
    if s != [] {
      assert s[0] != t[0];
      MissingFirstCharNotContained(s[1..], t);
    }
  }

  /** A needle occurring at position k is found. */
  lemma {:induction false} ContainedAt(s: string, t: string, k: nat)
    requires k + |t| <= |s| && s[k..k + |t|] == t
    ensures Contains(s, t)
  {
    if k > 0 {
      assert s[1..][k - 1..k - 1 + |t|] == s[k..k + |t|];
      ContainedAt(s[1..], t, k - 1);
    } else {
      assert t == s[..|t|];
    }
  }
}
