/**
 * The pieces of .NET string handling the core relies on: white space,
 * ordinal ignore-case comparison (ASCII case folding), substring search,
 * trimming, splitting and joining, and decimal integers.
 */
module Text {
  import opened Wrappers

  /** The characters `char.IsWhiteSpace` accepts: the Unicode White_Space property. */
  predicate IsWhiteSpace(c: char) {
    ('\U{0009}' <= c <= '\U{000D}') || c == ' ' || c == '\U{0085}' || c == '\U{00A0}'
    || c == '\U{1680}' || ('\U{2000}' <= c <= '\U{200A}') || c == '\U{2028}' || c == '\U{2029}'
    || c == '\U{202F}' || c == '\U{205F}' || c == '\U{3000}'
  }

  /** `string.IsNullOrWhiteSpace`: null, empty, or white space only. */
  predicate IsNullOrWhiteSpace(s: Option<string>) {
    s.None? || forall i :: 0 <= i < |s.value| ==> IsWhiteSpace(s.value[i])
  }

  /** `string.StartsWith(char)` followed by dropping that character: `s[1..]` when `s` starts with `c`. */
  function StripPrefixChar(s: string, c: char): (r: string)
    ensures |s| > 0 && s[0] == c ==> r == s[1..]
    ensures !(|s| > 0 && s[0] == c) ==> r == s
  {
    if |s| > 0 && s[0] == c then s[1..] else s
  }

  function TrimStart(s: string): (r: string)
    ensures |r| <= |s| && r == s[|s| - |r|..]
    ensures |r| > 0 ==> !IsWhiteSpace(r[0])
    ensures forall i :: 0 <= i < |s| - |r| ==> IsWhiteSpace(s[i])
  {
    if |s| > 0 && IsWhiteSpace(s[0]) then TrimStart(s[1..]) else s
  }

  function TrimEnd(s: string): (r: string)
    ensures |r| <= |s| && r == s[..|r|]
    ensures |r| > 0 ==> !IsWhiteSpace(r[|r| - 1])
    ensures forall i :: |r| <= i < |s| ==> IsWhiteSpace(s[i])
  {
    if |s| > 0 && IsWhiteSpace(s[|s| - 1]) then TrimEnd(s[..|s| - 1]) else s
  }

  /** `string.Trim()`: white space removed from both ends. */
  function Trim(s: string): (r: string)
    ensures |r| <= |s|
    ensures |r| > 0 ==> !IsWhiteSpace(r[0]) && !IsWhiteSpace(r[|r| - 1])
  {
    TrimEnd(TrimStart(s))
  }

  /**
   * Trimming removes white space from the ends and nothing else: the
   * result is a slice of the text with only white space before and after
   * it.
   */
  lemma TrimSpec(s: string)
    ensures exists a :: WhiteAround(s, Trim(s), a)
  {
    var t := TrimStart(s);
    var r := TrimEnd(t);
    assert r == Trim(s);
    var a := |s| - |t|;
    assert t == s[a..] && r == t[..|r|];
    assert r == s[a..a + |r|];
    forall i | a + |r| <= i < |s|
      ensures IsWhiteSpace(s[i])
    {
      assert s[i] == t[i - a];
    }
    assert WhiteAround(s, r, a);
  }

  /** `r` sits at position `a` of `s` with only white space before and after it. */
  predicate WhiteAround(s: string, r: string, a: int) {
    0 <= a <= |s| - |r| && r == s[a..a + |r|]
    && (forall i :: 0 <= i < a ==> IsWhiteSpace(s[i]))
    && (forall i :: a + |r| <= i < |s| ==> IsWhiteSpace(s[i]))
  }

  /** Case folding used for ordinal ignore-case comparison (ASCII letters only). */
  function FoldCase(c: char): char {
    if 'a' <= c <= 'z' then (c as int - 32) as char else c
  }

  /** `string.Equals(a, b, StringComparison.OrdinalIgnoreCase)`. */
  predicate EqualsIgnoreCase(a: string, b: string) {
    |a| == |b| && forall i :: 0 <= i < |a| ==> FoldCase(a[i]) == FoldCase(b[i])
  }

  /** `needle` occurs in `hay` at position `i`, ignoring case. */
  predicate MatchesAt(hay: string, needle: string, i: int) {
    0 <= i <= |hay| - |needle| && EqualsIgnoreCase(hay[i..i + |needle|], needle)
  }

  /**
   * `hay.Contains(needle, StringComparison.OrdinalIgnoreCase)`, as a scan
   * from the left; true exactly when some position matches.
   */
  function ContainsIgnoreCase(hay: string, needle: string): (r: bool)
    decreases |hay|
    ensures r <==> exists i :: MatchesAt(hay, needle, i)
  {
    if |hay| < |needle| then
      false
    else if EqualsIgnoreCase(hay[..|needle|], needle) then
      assert MatchesAt(hay, needle, 0);
      true
    else
      MatchesAtShift(hay, needle);
      ContainsIgnoreCase(hay[1..], needle)
  }

  /** A match in `hay[1..]` is a match in `hay` one position later, and back. */
  lemma MatchesAtShift(hay: string, needle: string)
    requires |hay| > 0
    ensures (exists i :: MatchesAt(hay[1..], needle, i)) <==> (exists i :: i > 0 && MatchesAt(hay, needle, i))
  {
    if i :| MatchesAt(hay[1..], needle, i) {
      assert hay[1..][i..i + |needle|] == hay[i + 1..i + 1 + |needle|];
      assert MatchesAt(hay, needle, i + 1);
    }
    if i :| i > 0 && MatchesAt(hay, needle, i) {
      assert hay[1..][i - 1..i - 1 + |needle|] == hay[i..i + |needle|];
      assert MatchesAt(hay[1..], needle, i - 1);
    }
  }

  /** `string.Join(sep, parts)`. */
  function Join(sep: string, parts: seq<string>): (r: string)
  {
    if |parts| == 0 then ""
    else if |parts| == 1 then parts[0]
    else parts[0] + sep + Join(sep, parts[1..])
  }

  /** A join starts with its first part. */
  lemma JoinStartsWithFirst(sep: string, parts: seq<string>)
    requires |parts| > 0
    ensures parts[0] <= Join(sep, parts)
    ensures |parts[0]| > 0 ==> |Join(sep, parts)| > 0
  {
    if |parts| > 1 {
      assert Join(sep, parts) == parts[0] + (sep + Join(sep, parts[1..]));
    }
  }

  /** `s.Split(sep)`: the pieces between separators, empty pieces kept. */
  function Split(s: string, sep: char): (parts: seq<string>)
    ensures |parts| >= 1
  {
    if |s| == 0 then [""]
    else
      var rest := Split(s[1..], sep);
      if s[0] == sep then [""] + rest else [[s[0]] + rest[0]] + rest[1..]
  }

  lemma {:induction false} SplitNoSeparator(s: string, sep: char)
    requires sep !in s
    ensures Split(s, sep) == [s]
  {
    if |s| > 0 {
      SplitNoSeparator(s[1..], sep);
      assert [s[0]] + s[1..] == s;
    }
  }

  lemma {:induction false} SplitAtFirstSeparator(a: string, sep: char, b: string)
    requires sep !in a
    ensures Split(a + [sep] + b, sep) == [a] + Split(b, sep)
  {
    if |a| == 0 {
      assert a + [sep] + b == [sep] + b;
      assert ([sep] + b)[1..] == b;
    } else {
      SplitAtFirstSeparator(a[1..], sep, b);
      assert (a + [sep] + b)[1..] == a[1..] + [sep] + b;
      assert [a[0]] + a[1..] == a;
    }
  }

  /** Splitting on a one-character separator undoes joining with it. */
  lemma {:induction false} SplitJoin(parts: seq<string>, sep: char)
    requires |parts| >= 1
    requires forall i :: 0 <= i < |parts| ==> sep !in parts[i]
    ensures Split(Join([sep], parts), sep) == parts
  {
    if |parts| == 1 {
      SplitNoSeparator(parts[0], sep);
    } else {
      SplitJoin(parts[1..], sep);
      SplitAtFirstSeparator(parts[0], sep, Join([sep], parts[1..]));
      assert [parts[0]] + parts[1..] == parts;
    }
  }

  // ---------------------------------------------------------------------
  // Decimal integers

  predicate IsDigit(c: char) { '0' <= c <= '9' }

  function DigitValue(c: char): nat
    requires IsDigit(c)
  {
    c as int - '0' as int
  }

  function DigitChar(d: nat): (c: char)
    requires d < 10
    ensures IsDigit(c) && DigitValue(c) == d
  {
    ('0' as int + d) as char
  }

  predicate AllDigits(s: string) {
    forall i :: 0 <= i < |s| ==> IsDigit(s[i])
  }

  /** The value of a string of decimal digits, read left to right. */
  function DigitsValue(s: string): nat
    requires AllDigits(s)
  {
    if |s| == 0 then 0 else DigitsValue(s[..|s| - 1]) * 10 + DigitValue(s[|s| - 1])
  }

  /** The decimal text of a non-negative integer, as string interpolation writes it. */
  function FormatNat(n: nat): (s: string)
    ensures |s| >= 1 && AllDigits(s)
  {
    if n < 10 then [DigitChar(n)] else FormatNat(n / 10) + [DigitChar(n % 10)]
  }

  lemma {:induction false} FormatNatRoundTrip(n: nat)
    ensures DigitsValue(FormatNat(n)) == n
  {
    if n >= 10 {
      FormatNatRoundTrip(n / 10);
      var s := FormatNat(n);
      assert s[..|s| - 1] == FormatNat(n / 10);
    }
  }

  const Int32Min: int := -0x8000_0000
  const Int32Max: int := 0x7FFF_FFFF

  /** The white space `int.Parse` skips around a number. */
  predicate IsNumberWhite(c: char) { c == ' ' || ('\U{0009}' <= c <= '\U{000D}') }

  predicate IsNumberWhiteText(w: string) {
    forall i :: 0 <= i < |w| ==> IsNumberWhite(w[i])
  }

  function SkipNumberWhite(s: string): (r: string)
    ensures |r| <= |s| && r == s[|s| - |r|..]
    ensures |r| > 0 ==> !IsNumberWhite(r[0])
  {
    if |s| > 0 && IsNumberWhite(s[0]) then SkipNumberWhite(s[1..]) else s
  }

  function SkipNumberWhiteEnd(s: string): (r: string)
    ensures |r| <= |s| && r == s[..|r|]
  {
    if |s| > 0 && IsNumberWhite(s[|s| - 1]) then SkipNumberWhiteEnd(s[..|s| - 1]) else s
  }

  /**
   * `int.TryParse(s, out v)`: optional white space, an optional `+` or `-`,
   * one or more decimal digits, optional white space, and a value within
   * the 32-bit range; anything else fails.
   */
  function TryParseInt32(s: string): (r: Option<int>)
    ensures r.Some? ==> Int32Min <= r.value <= Int32Max
  {
    ParseSignedDigits(SkipNumberWhiteEnd(SkipNumberWhite(s)))
  }

  /** The number itself, white space already skipped: a sign, then digits. */
  function ParseSignedDigits(t: string): (r: Option<int>)
    ensures r.Some? ==> Int32Min <= r.value <= Int32Max
  {
    var negative := |t| > 0 && t[0] == '-';
    var digits := if |t| > 0 && (t[0] == '-' || t[0] == '+') then t[1..] else t;
    if |digits| == 0 || !AllDigits(digits) then None
    else
      var magnitude: int := DigitsValue(digits);
      var v := if negative then 0 - magnitude else magnitude;
      if Int32Min <= v <= Int32Max then Some(v) else None
  }

  lemma FormatNatHasNoWhite(n: nat)
    ensures forall i :: 0 <= i < |FormatNat(n)| ==> !IsNumberWhite(FormatNat(n)[i]) && !IsWhiteSpace(FormatNat(n)[i])
  {
  }

  /** Parsing the decimal text of a 32-bit non-negative integer gives it back. */
  lemma ParseFormatNat(n: nat)
    requires n <= Int32Max
    ensures TryParseInt32(FormatNat(n)) == Some(n)
  {
    var s := FormatNat(n);
    assert IsDigit(s[0]) && IsDigit(s[|s| - 1]);
    assert SkipNumberWhite(s) == s;
    assert SkipNumberWhiteEnd(s) == s;
    FormatNatRoundTrip(n);
  }

  /** Skipping leading white space before a text that starts with something else leaves that text. */
  lemma {:induction false} SkipNumberWhiteBefore(w: string, rest: string)
    requires IsNumberWhiteText(w) && |rest| > 0 && !IsNumberWhite(rest[0])
    ensures SkipNumberWhite(w + rest) == rest
    decreases |w|
  {
    if |w| == 0 {
      assert w + rest == rest;
    } else {
      assert (w + rest)[1..] == w[1..] + rest;
      SkipNumberWhiteBefore(w[1..], rest);
    }
  }

  /** Skipping trailing white space after a text that ends with something else leaves that text. */
  lemma {:induction false} SkipNumberWhiteAfter(rest: string, w: string)
    requires IsNumberWhiteText(w) && |rest| > 0 && !IsNumberWhite(rest[|rest| - 1])
    ensures SkipNumberWhiteEnd(rest + w) == rest
    decreases |w|
  {
    if |w| == 0 {
      assert rest + w == rest;
    } else {
      assert (rest + w)[..|rest + w| - 1] == rest + w[..|w| - 1];
      SkipNumberWhiteAfter(rest, w[..|w| - 1]);
    }
  }

  /** The value `int.TryParse` reads from an optional sign and decimal digits. */
  function SignedValue(sign: string, digits: string): int
    requires AllDigits(digits)
  {
    if sign == "-" then 0 - DigitsValue(digits) else DigitsValue(digits)
  }

  /** An optional sign followed by digits reads as their signed value when it fits in 32 bits. */
  lemma ParseSignedDigitsSpec(sign: string, digits: string)
    requires sign == "" || sign == "+" || sign == "-"
    requires |digits| > 0 && AllDigits(digits)
    ensures var v := SignedValue(sign, digits);
            ParseSignedDigits(sign + digits) == if Int32Min <= v <= Int32Max then Some(v) else None
  {
    var t := sign + digits;
    if sign == "" {
      assert t == digits;
    } else {
      assert t[0] == sign[0] && t[1..] == digits;
    }
  }

  /**
   * Every text made of white space, an optional `+` or `-`, one or more
   * decimal digits and white space parses to the signed value of the
   * digits when it fits in 32 bits, and fails otherwise.
   */
  lemma TryParseInt32Accepts(w1: string, sign: string, digits: string, w2: string)
    requires IsNumberWhiteText(w1) && IsNumberWhiteText(w2)
    requires sign == "" || sign == "+" || sign == "-"
    requires |digits| > 0 && AllDigits(digits)
    ensures var v := SignedValue(sign, digits);
            TryParseInt32(w1 + sign + digits + w2) == if Int32Min <= v <= Int32Max then Some(v) else None
  {
    var core := sign + digits;
    assert core[|core| - 1] == digits[|digits| - 1];
    assert !IsNumberWhite(core[0]) by {
      if sign == "" { assert core[0] == digits[0]; } else { assert core[0] == sign[0]; }
    }
    assert w1 + sign + digits + w2 == w1 + (core + w2);
    assert (core + w2)[0] == core[0];
    SkipNumberWhiteBefore(w1, core + w2);
    SkipNumberWhiteAfter(core, w2);
    ParseSignedDigitsSpec(sign, digits);
  }

  /** What leading white space skipping drops is white space. */
  lemma {:induction false} SkipNumberWhiteDropsWhite(s: string)
    ensures forall i :: 0 <= i < |s| - |SkipNumberWhite(s)| ==> IsNumberWhite(s[i])
    decreases |s|
  {
    if |s| > 0 && IsNumberWhite(s[0]) {
      SkipNumberWhiteDropsWhite(s[1..]);
      forall i | 1 <= i < |s| - |SkipNumberWhite(s)|
        ensures IsNumberWhite(s[i])
      {
        assert s[i] == s[1..][i - 1];
      }
    }
  }

  /** What trailing white space skipping drops is white space. */
  lemma {:induction false} SkipNumberWhiteEndDropsWhite(s: string)
    ensures forall i :: |SkipNumberWhiteEnd(s)| <= i < |s| ==> IsNumberWhite(s[i])
    decreases |s|
  {
    if |s| > 0 && IsNumberWhite(s[|s| - 1]) {
      SkipNumberWhiteEndDropsWhite(s[..|s| - 1]);
      forall i | |SkipNumberWhiteEnd(s)| <= i < |s| - 1
        ensures IsNumberWhite(s[i])
      {
        assert s[i] == s[..|s| - 1][i];
      }
    }
  }

  /** A character `int.TryParse` can accept: number white space, a sign or a decimal digit. */
  predicate IsNumberChar(c: char) {
    IsNumberWhite(c) || IsDigit(c) || c == '+' || c == '-'
  }

  /** A text with any other character fails to parse. */
  lemma TryParseInt32OnlyNumberChars(s: string)
    ensures TryParseInt32(s).Some? ==> forall i :: 0 <= i < |s| ==> IsNumberChar(s[i])
  {
    if TryParseInt32(s).Some? {
      SkipNumberWhiteDropsWhite(s);
      SkipNumberWhiteEndDropsWhite(SkipNumberWhite(s));
      var t1 := SkipNumberWhite(s);
      var t := SkipNumberWhiteEnd(t1);
      var digits := if |t| > 0 && (t[0] == '-' || t[0] == '+') then t[1..] else t;
      forall i | 0 <= i < |s|
        ensures IsNumberChar(s[i])
      {
        var j := i - (|s| - |t1|);
        if j >= 0 {
          assert s[i] == t1[j];
          if j < |t| {
            assert t1[j] == t[j];
            if |t| > 0 && (t[0] == '-' || t[0] == '+') && j > 0 {
              assert t[j] == digits[j - 1];
            }
          }
        }
      }
    }
  }
}
