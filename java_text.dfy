/**
 * The pieces of the Java platform that the bookstore code leans on, stated
 * exactly enough for the rest of the model: `null` as an option, the 32- and
 * 64-bit integer ranges with Java's wrap-around and truncating division,
 * ASCII case folding, `Character.isWhitespace`, `String.trim`,
 * `String.replace`, and decimal printing and parsing of integers.
 */
module JavaText {

  /** A Java reference that may be `null`. */
  datatype Option<T> = None | Some(value: T)

  // ---------------------------------------------------------------------
  // Integer widths
  // ---------------------------------------------------------------------

  const MinInt32: int := -0x8000_0000
  const MaxInt32: int := 0x7fff_ffff
  const MinInt64: int := -0x8000_0000_0000_0000
  const MaxInt64: int := 0x7fff_ffff_ffff_ffff

  predicate IsInt32(x: int) { MinInt32 <= x <= MaxInt32 }
  predicate IsInt64(x: int) { MinInt64 <= x <= MaxInt64 }

  /** Java `int` arithmetic: the result of an operation reduced modulo 2^32 into the signed range. */
  function Wrap32(x: int): (r: int)
    ensures IsInt32(r)
    ensures (x - r) % 0x1_0000_0000 == 0
    ensures IsInt32(x) ==> r == x
  {
    var m := x % 0x1_0000_0000;
    if m > MaxInt32 then m - 0x1_0000_0000 else m
  }

  /** Java's `/` on integers: rounds toward zero (Dafny's `/` is Euclidean). */
  function JavaDiv(a: int, b: int): (q: int)
    requires b > 0
    ensures a >= 0 ==> q == a / b
    ensures a < 0 ==> q == -((-a) / b)
  {
    if a >= 0 then a / b else -((-a) / b)
  }

  /** Java's `%` on integers: the remainder takes the sign of the dividend. */
  function JavaRem(a: int, b: int): (r: int)
    requires b > 0
    ensures a == JavaDiv(a, b) * b + r
    ensures a >= 0 ==> 0 <= r < b
    ensures a < 0 ==> -b < r <= 0
  {
    if a >= 0 then a % b else -((-a) % b)
  }

  /** A non-negative number times a positive one is at least the first. */
  lemma MulAtLeast(a: int, b: int)
    requires a >= 0 && b >= 1
    ensures a <= a * b
  {
  }

  // ---------------------------------------------------------------------
  // Characters and case
  // ---------------------------------------------------------------------

  /** `Character.toLowerCase` restricted to ASCII letters. */
  function LowerChar(c: char): char
  {
    if 'A' <= c <= 'Z' then (c as int + 32) as char else c
  }

  /** `Character.toUpperCase` restricted to ASCII letters. */
  function UpperChar(c: char): char
  {
    if 'a' <= c <= 'z' then (c as int - 32) as char else c
  }

  /** `String.toLowerCase()` with ASCII folding. */
  function ToLower(s: string): (r: string)
    ensures |r| == |s|
  {
    seq(|s|, i requires 0 <= i < |s| => LowerChar(s[i]))
  }

  /** `String.toUpperCase()` with ASCII folding. */
  function ToUpper(s: string): (r: string)
    ensures |r| == |s|
  {
    seq(|s|, i requires 0 <= i < |s| => UpperChar(s[i]))
  }

  /** `a.equalsIgnoreCase(b)` for a non-null `b`, with ASCII folding. */
  predicate EqualsIgnoreCase(a: string, b: string)
  {
    ToLower(a) == ToLower(b)
  }

  /** `literal.equalsIgnoreCase(s)`: false when `s` is `null`. */
  predicate LiteralEqualsIgnoreCase(literal: string, s: Option<string>)
  {
    s.Some? && EqualsIgnoreCase(literal, s.value)
  }

  /** `Character.isWhitespace`: the ASCII separators and controls U+0009..U+000D, U+001C..U+001F,
      and the Unicode space, line and paragraph separators except the three no-break spaces. */
  predicate IsWhitespace(c: char)
  {
    || c == ' ' || '\t' <= c <= '\r' || '\U{1C}' <= c <= '\U{1F}'
    || c == '\U{1680}' || '\U{2000}' <= c <= '\U{2006}' || '\U{2008}' <= c <= '\U{200A}'
    || c == '\U{2028}' || c == '\U{2029}' || c == '\U{205F}' || c == '\U{3000}'
  }

  /** `String.isBlank()`: empty or whitespace only. */
  predicate IsBlank(s: string)
  {
    forall i :: 0 <= i < |s| ==> IsWhitespace(s[i])
  }

  /** `s != null && !s.isBlank()`: the test every text filter goes through. */
  predicate Present(s: Option<string>)
  {
    s.Some? && !IsBlank(s.value)
  }

  // ---------------------------------------------------------------------
  // trim and replace
  // ---------------------------------------------------------------------

  /** The characters `String.trim` removes: every code point up to U+0020. */
  predicate TrimmedAway(c: char) { c <= ' ' }

  /** Number of characters `trim` removes at the front. */
  function LeadingTrim(s: string): (k: nat)
    ensures k <= |s|
    ensures forall i :: 0 <= i < k ==> TrimmedAway(s[i])
    ensures k < |s| ==> !TrimmedAway(s[k])
  {
    if s == [] || !TrimmedAway(s[0]) then 0 else 1 + LeadingTrim(s[1..])
  }

  /** Number of characters `trim` removes at the back. */
  function TrailingTrim(s: string): (k: nat)
    ensures k <= |s|
    ensures forall i :: |s| - k <= i < |s| ==> TrimmedAway(s[i])
    ensures k < |s| ==> !TrimmedAway(s[|s| - 1 - k])
  {
    if s == [] || !TrimmedAway(s[|s| - 1]) then 0 else 1 + TrailingTrim(s[..|s| - 1])
  }

  /** `String.trim()`. */
  function Trim(s: string): (r: string)
    ensures |r| <= |s|
    ensures r != [] ==> !TrimmedAway(r[0]) && !TrimmedAway(r[|r| - 1])
    ensures (s == [] || (!TrimmedAway(s[0]) && !TrimmedAway(s[|s| - 1]))) ==> r == s
  {
    var front := s[LeadingTrim(s)..];
    front[..|front| - TrailingTrim(front)]
  }

  /** `s.replace(String.valueOf(c), rep)`: every occurrence of the single character `c`
      is replaced, left to right, by `rep`. */
  function Replace(s: string, c: char, rep: string): (r: string)
    ensures c !in rep ==> c !in r
    ensures forall d :: d !in s && d !in rep ==> d !in r
  {
    if s == [] then []
    else (if s[0] == c then rep else [s[0]]) + Replace(s[1..], c, rep)
  }

  /** Replacing a character the text does not hold changes nothing. */
  lemma {:induction false} ReplaceAbsent(s: string, c: char, rep: string)
    requires c !in s
    ensures Replace(s, c, rep) == s
  {
    if s != [] {
      ReplaceAbsent(s[1..], c, rep);
      assert s == [s[0]] + s[1..];
    }
  }

  /** Replacing a character by one character keeps the length and changes only its occurrences. */
  lemma {:induction false} ReplaceCharLength(s: string, c: char, d: char)
    ensures |Replace(s, c, [d])| == |s|
    ensures forall i :: 0 <= i < |s| ==> Replace(s, c, [d])[i] == if s[i] == c then d else s[i]
  {
    if s != [] {
      ReplaceCharLength(s[1..], c, d);
    }
  }

  // ---------------------------------------------------------------------
  // Fields of a text
  // ---------------------------------------------------------------------

  /** Every field between separators, empty ones included (`split(sep, -1)`). */
  function SplitAll(s: string, sep: char): (parts: seq<string>)
    ensures |parts| >= 1
    ensures forall i :: 0 <= i < |parts| ==> sep !in parts[i]
  {
    if s == [] then [""]
    else
      var rest := SplitAll(s[1..], sep);
      if s[0] == sep then [""] + rest else [[s[0]] + rest[0]] + rest[1..]
  }

  /** The fields glued back together with the separator between them. */
  function JoinWith(parts: seq<string>, sep: char): string
  {
    if parts == [] then ""
    else if |parts| == 1 then parts[0]
    else parts[0] + [sep] + JoinWith(parts[1..], sep)
  }

  /** Joining one more field appends the separator and the field. */
  lemma {:induction false} JoinWithSnoc(parts: seq<string>, p: string, sep: char)
    requires parts != []
    ensures JoinWith(parts + [p], sep) == JoinWith(parts, sep) + [sep] + p
  {
    if |parts| > 1 {
      assert (parts + [p])[1..] == parts[1..] + [p];
      JoinWithSnoc(parts[1..], p, sep);
    }
  }

  /** Splitting loses nothing: the fields joined with the separator give back the text. */
  lemma {:induction false} JoinSplitAll(s: string, sep: char)
    ensures JoinWith(SplitAll(s, sep), sep) == s
  {
    if s != [] {
      var rest := SplitAll(s[1..], sep);
      JoinSplitAll(s[1..], sep);
      if s[0] == sep {
        assert ([""] + rest)[1..] == rest;
      } else {
        var parts := [[s[0]] + rest[0]] + rest[1..];
        if |rest| == 1 {
          assert parts == [[s[0]] + rest[0]];
        } else {
          assert parts[1..] == rest[1..];
          assert JoinWith(rest, sep) == rest[0] + [sep] + JoinWith(rest[1..], sep);
        }
      }
      assert s == [s[0]] + s[1..];
    }
  }

  /** A text without the separator is a single field. */
  lemma {:induction false} SplitAllWithoutSep(s: string, sep: char)
    requires sep !in s
    ensures SplitAll(s, sep) == [s]
  {
    if s != [] {
      SplitAllWithoutSep(s[1..], sep);
      assert s == [s[0]] + s[1..];
    }
  }

  /** A field without the separator, then the separator, then the rest: the field comes
      first and the rest is split on its own. */
  lemma {:induction false} SplitAllAfterField(a: string, sep: char, b: string)
    requires sep !in a
    ensures SplitAll(a + [sep] + b, sep) == [a] + SplitAll(b, sep)
  {
    var s := a + [sep] + b;
    if a == [] {
      assert s[0] == sep && s[1..] == b;
    } else {
      assert s[0] == a[0] && s[1..] == a[1..] + [sep] + b;
      SplitAllAfterField(a[1..], sep, b);
      assert [a[0]] + a[1..] == a;
    }
  }

  /** Joining fields that hold no separator and splitting again gives the fields back. */
  lemma {:induction false} SplitAllJoinWith(parts: seq<string>, sep: char)
    requires parts != []
    requires forall i :: 0 <= i < |parts| ==> sep !in parts[i]
    ensures SplitAll(JoinWith(parts, sep), sep) == parts
  {
    if |parts| == 1 {
      SplitAllWithoutSep(parts[0], sep);
    } else {
      SplitAllJoinWith(parts[1..], sep);
      SplitAllAfterField(parts[0], sep, JoinWith(parts[1..], sep));
      assert [parts[0]] + parts[1..] == parts;
    }
  }

  // ---------------------------------------------------------------------
  // Decimal text of integers
  // ---------------------------------------------------------------------

  predicate IsDigit(c: char) { '0' <= c <= '9' }

  function DigitChar(d: nat): (c: char)
    requires d < 10
    ensures IsDigit(c)
  {
    ('0' as int + d) as char
  }

  /** Decimal digits of a natural number, most significant first, without leading zeros. */
  function NatToString(n: nat): (s: string)
    ensures |s| >= 1
    ensures forall i :: 0 <= i < |s| ==> IsDigit(s[i])
    ensures |s| > 1 ==> s[0] != '0'
  {
    if n < 10 then [DigitChar(n)] else NatToString(n / 10) + [DigitChar(n % 10)]
  }

  /** `Integer.toString` / `Long.toString` (and `StringBuilder.append` of a number). */
  function IntToString(n: int): (s: string)
    ensures |s| >= 1
    ensures n >= 0 <==> IsDigit(s[0])
    ensures forall i :: 0 < i < |s| ==> IsDigit(s[i])
  {
    if n < 0 then "-" + NatToString(-n) else NatToString(n)
  }

  /** The value of a string of decimal digits. */
  function DigitsValue(s: string): nat
    requires forall i :: 0 <= i < |s| ==> IsDigit(s[i])
  {
    if s == [] then 0
    else
      assert IsDigit(s[|s| - 1]);
      DigitsValue(s[..|s| - 1]) * 10 + (s[|s| - 1] as int - '0' as int)
  }

  lemma {:induction false} DigitsValueOfNatToString(n: nat)
    ensures DigitsValue(NatToString(n)) == n
  {
    if n >= 10 {
      var s := NatToString(n);
      assert s[..|s| - 1] == NatToString(n / 10);
      DigitsValueOfNatToString(n / 10);
    }
  }

  /** The text `parseInt` accepts: an optional sign followed by at least one digit. */
  predicate IntegerSyntax(s: string)
  {
    var start := if s != [] && (s[0] == '-' || s[0] == '+') then 1 else 0;
    start < |s| && forall i :: start <= i < |s| ==> IsDigit(s[i])
  }

  /** `Integer.parseInt(s)` (lo, hi = the int range) or `Long.parseLong(s)` (the long range):
      an optional sign, then one or more decimal digits, and a value inside the range;
      anything else is a `NumberFormatException`, here `None`. */
  function ParseInteger(s: string, lo: int, hi: int): (r: Option<int>)
    ensures r.Some? ==> lo <= r.value <= hi
    ensures r.Some? ==> IntegerSyntax(s)
    ensures s == [] ==> r == None
  {
    if s == [] then None
    else
      var negative := s[0] == '-';
      var digits := if s[0] == '-' || s[0] == '+' then s[1..] else s;
      if digits == [] || exists i :: 0 <= i < |digits| && !IsDigit(digits[i]) then None
      else
        var magnitude: int := DigitsValue(digits);
        var v := if negative then -magnitude else magnitude;
        if lo <= v <= hi then Some(v) else None
  }

  /** A leading '+' is accepted; a lone sign and an inner space are not. */
  lemma ParseIntegerSyntaxExamples()
    ensures ParseInteger("+42", MinInt32, MaxInt32) == Some(42)
    ensures ParseInteger("-", MinInt32, MaxInt32) == None
    ensures ParseInteger("4 2", MinInt32, MaxInt32) == None
  {
    assert !IsDigit("4 2"[1]);
    var d := "+42"[1..];
    assert d == "42" && d[..1] == "4" && d[..1][..0] == [];
    assert DigitsValue(d[..1]) == 4;
    assert DigitsValue(d) == 42;
  }

  /** Printing a number and parsing it back gives the number, whenever it is in range. */
  lemma ParseIntegerOfIntToString(n: int, lo: int, hi: int)
    requires lo <= n <= hi
    ensures ParseInteger(IntToString(n), lo, hi) == Some(n)
  {
    var s := IntToString(n);
    if n < 0 {
      assert s[1..] == NatToString(-n);
      DigitsValueOfNatToString(-n);
    } else {
      DigitsValueOfNatToString(n);
    }
  }
}
