/**
 * The few .NET string and integer operations the blocks rely on, written out:
 * char.IsWhiteSpace, string.IsNullOrWhiteSpace, string.Split on one character,
 * joining with a delimiter, string.TrimEnd, string.Replace(x, ""), ordinal
 * ignore-case comparison, Int32.ToString and Int32.TryParse, and DateTime
 * as a count of ticks.
 */
module Text {
  import opened Wrappers

  /** char.IsWhiteSpace: the Unicode space separators, line and paragraph
      separators, and the control characters U+0009..U+000D, U+0085. */
  predicate IsWhiteSpace(c: char) {
    || '\U{0009}' <= c <= '\U{000D}' || c == '\U{0020}' || c == '\U{0085}' || c == '\U{00A0}'
    || c == '\U{1680}' || '\U{2000}' <= c <= '\U{200A}' || c == '\U{2028}' || c == '\U{2029}'
    || c == '\U{202F}' || c == '\U{205F}' || c == '\U{3000}'
  }

  /** An empty or all-whitespace string. */
  predicate IsBlank(s: string) {
    forall i :: 0 <= i < |s| ==> IsWhiteSpace(s[i])
  }

  /** string.IsNullOrWhiteSpace. */
  predicate IsNullOrWhiteSpace(s: Option<string>) {
    s.None? || IsBlank(s.value)
  }

  /** string.Split(new[] { sep }): the pieces between separators, empty pieces
      included, so a string with k separators has k + 1 pieces. */
  function Split(s: string, sep: char): (r: seq<string>)
    ensures |r| >= 1
    decreases |s|
  {
    if |s| == 0 then [""]
    else
      var rest := Split(s[1..], sep);
      if s[0] == sep then [""] + rest
      else [[s[0]] + rest[0]] + rest[1..]
  }

  /** The pieces joined with `sep` between them (string.Join, Rock's AsDelimited). */
  function Join(parts: seq<string>, sep: string): (r: string)
    decreases |parts|
  {
    if |parts| == 0 then ""
    else if |parts| == 1 then parts[0]
    else parts[0] + sep + Join(parts[1..], sep)
  }

  /** Splitting at a separator splits the two sides independently. */
  lemma {:induction false} SplitConcat(a: string, b: string, sep: char)
    ensures Split(a + [sep] + b, sep) == Split(a, sep) + Split(b, sep)
    decreases |a|
  {
    if |a| == 0 {
      assert a + [sep] + b == [sep] + b;
      assert ([sep] + b)[1..] == b;
    } else {
      var x := a + [sep] + b;
      assert x[0] == a[0] && x[1..] == a[1..] + [sep] + b;
      SplitConcat(a[1..], b, sep);
      var left, right := Split(a[1..], sep), Split(b, sep);
      assert Split(x[1..], sep) == left + right;
      if a[0] != sep {
        assert (left + right)[0] == left[0];
        assert (left + right)[1..] == left[1..] + right;
        assert Split(a, sep) == [[a[0]] + left[0]] + left[1..];
      }
    }
  }

  /** A string without the separator is a single piece. */
  lemma {:induction false} SplitWithoutSeparator(s: string, sep: char)
    requires sep !in s
    ensures Split(s, sep) == [s]
    decreases |s|
  {
    if |s| > 0 {
      assert [s[0]] + s[1..] == s;
      SplitWithoutSeparator(s[1..], sep);
    }
  }

  /** The pieces of a blank string are blank. */
  lemma {:induction false} SplitBlank(s: string, sep: char)
    requires IsBlank(s)
    ensures forall i :: 0 <= i < |Split(s, sep)| ==> IsBlank(Split(s, sep)[i])
    decreases |s|
  {
    if |s| > 0 {
      assert IsBlank(s[1..]) by {
        forall i | 0 <= i < |s[1..]| ensures IsWhiteSpace(s[1..][i]) {
          assert s[1..][i] == s[i + 1];
        }
      }
      SplitBlank(s[1..], sep);
    }
  }

  /** Splitting a joined list gives the list back, when no piece holds the separator. */
  lemma {:induction false} SplitJoin(parts: seq<string>, sep: char)
    requires |parts| >= 1
    requires forall i :: 0 <= i < |parts| ==> sep !in parts[i]
    ensures Split(Join(parts, [sep]), sep) == parts
    decreases |parts|
  {
    if |parts| == 1 {
      SplitWithoutSeparator(parts[0], sep);
    } else {
      SplitJoin(parts[1..], sep);
      SplitWithoutSeparator(parts[0], sep);
      SplitConcat(parts[0], Join(parts[1..], [sep]), sep);
      assert [parts[0]] + parts[1..] == parts;
    }
  }

  /** Joining the pieces of a split gives the string back. */
  lemma {:induction false} JoinSplit(s: string, sep: char)
    ensures Join(Split(s, sep), [sep]) == s
    decreases |s|
  {
    if |s| > 0 {
      JoinSplit(s[1..], sep);
      var rest := Split(s[1..], sep);
      if s[0] == sep {
        assert ([""] + rest)[1..] == rest;
      } else {
        var r := [[s[0]] + rest[0]] + rest[1..];
        if |rest| == 1 {
          assert r == [[s[0]] + rest[0]];
        } else {
          assert r[1..] == rest[1..];
          assert Join(rest, [sep]) == rest[0] + [sep] + Join(rest[1..], [sep]);
        }
        assert [s[0]] + s[1..] == s;
      }
    }
  }

  /** string.TrimEnd(chars): drops trailing characters that are in `chars`. */
  function TrimEnd(s: string, chars: set<char>): (r: string)
    decreases |s|
  {
    if |s| > 0 && s[|s| - 1] in chars then TrimEnd(s[..|s| - 1], chars) else s
  }

  /** TrimEnd leaves a prefix of its input that does not end in a trimmed character. */
  lemma {:induction false} TrimEndIsPrefix(s: string, chars: set<char>)
    ensures |TrimEnd(s, chars)| <= |s| && TrimEnd(s, chars) == s[..|TrimEnd(s, chars)|]
    ensures |TrimEnd(s, chars)| > 0 ==> TrimEnd(s, chars)[|TrimEnd(s, chars)| - 1] !in chars
    ensures forall i :: |TrimEnd(s, chars)| <= i < |s| ==> s[i] in chars
    decreases |s|
  {
    if |s| > 0 && s[|s| - 1] in chars {
      TrimEndIsPrefix(s[..|s| - 1], chars);
    }
  }

  /** string.Replace(pat, ""): deletes every occurrence of `pat`, scanning left to right. */
  function RemoveAll(s: string, pat: string): (r: string)
    requires |pat| > 0
    decreases |s|
  {
    if |s| < |pat| then s
    else if s[..|pat|] == pat then RemoveAll(s[|pat|..], pat)
    else [s[0]] + RemoveAll(s[1..], pat)
  }

  /** ASCII case folding; other characters are left as they are. */
  function ToLowerAscii(c: char): char {
    if 'A' <= c <= 'Z' then (c as int + 32) as char else c
  }

  /** Ignore-case equality of two strings, for ASCII letters. */
  predicate EqualsIgnoreCase(a: string, b: string) {
    |a| == |b| && forall i :: 0 <= i < |a| ==> ToLowerAscii(a[i]) == ToLowerAscii(b[i])
  }

  // ---- Int32.ToString and Int32.TryParse ----

  const Int32Min: int := -0x8000_0000
  const Int32Max: int := 0x7FFF_FFFF

  /** A C# int. */
  type Int32 = x: int | Int32Min <= x <= Int32Max

  predicate IsDigit(c: char) { '0' <= c <= '9' }

  predicate AllDigits(s: string) { forall i :: 0 <= i < |s| ==> IsDigit(s[i]) }

  function DigitChar(d: nat): char
    requires d < 10
  {
    ('0' as int + d) as char
  }

  /** Decimal digits of `n`, most significant first, with no leading zeros. */
  function NatToString(n: nat): (r: string)
    decreases n
  {
    if n < 10 then [DigitChar(n)] else NatToString(n / 10) + [DigitChar(n % 10)]
  }

  /** Int32.ToString in the invariant culture. */
  function IntToString(n: int): string {
    if n < 0 then "-" + NatToString(-n) else NatToString(n)
  }

  /** The value of a string of decimal digits. */
  function DigitsValue(s: string): nat
    requires AllDigits(s)
    decreases |s|
  {
    if |s| == 0 then 0
    else DigitsValue(s[..|s| - 1]) * 10 + (s[|s| - 1] as int - '0' as int)
  }

  /** The white characters NumberStyles.Integer allows around a number. */
  predicate IsParseWhite(c: char) { c == ' ' || '\U{0009}' <= c <= '\U{000D}' }

  function TrimParseWhite(s: string): string
    decreases |s|
  {
    if |s| > 0 && IsParseWhite(s[0]) then TrimParseWhite(s[1..])
    else if |s| > 0 && IsParseWhite(s[|s| - 1]) then TrimParseWhite(s[..|s| - 1])
    else s
  }

  /** Trimming keeps every character that is not white, and adds none. */
  lemma {:induction false} TrimParseWhiteChars(s: string)
    ensures forall c :: c in TrimParseWhite(s) ==> c in s
    ensures forall k :: 0 <= k < |s| && !IsParseWhite(s[k]) ==> s[k] in TrimParseWhite(s)
    decreases |s|
  {
    if |s| > 0 && IsParseWhite(s[0]) {
      TrimParseWhiteChars(s[1..]);
      forall k | 0 <= k < |s| && !IsParseWhite(s[k]) ensures s[k] in TrimParseWhite(s) {
        assert s[k] == s[1..][k - 1];
      }
    } else if |s| > 0 && IsParseWhite(s[|s| - 1]) {
      TrimParseWhiteChars(s[..|s| - 1]);
      forall k | 0 <= k < |s| && !IsParseWhite(s[k]) ensures s[k] in TrimParseWhite(s) {
        assert s[k] == s[..|s| - 1][k];
      }
    }
  }

  /** The integer NumberStyles.Integer reads, before any range check:
      optional surrounding white, an optional sign and one or more digits;
      None when the text does not have that form. */
  function IntegerValue(s: string): Option<int> {
    var t := TrimParseWhite(s);
    var negative := |t| > 0 && t[0] == '-';
    var digits := if |t| > 0 && (t[0] == '-' || t[0] == '+') then t[1..] else t;
    if |digits| == 0 || !AllDigits(digits) then None
    else Some(if negative then 0 - DigitsValue(digits) as int else DigitsValue(digits))
  }

  /** Int32.TryParse with NumberStyles.Integer: an integer in that form whose
      value fits in 32 bits. Rock's AsIntegerOrNull is this, with null for failure. */
  function TryParseInt(s: string): Option<int> {
    match IntegerValue(s)
    case Some(v) => if Int32Min <= v <= Int32Max then Some(v) else None
    case None => None
  }

  lemma {:induction false} NatToStringDigits(n: nat)
    ensures |NatToString(n)| > 0 && AllDigits(NatToString(n))
    ensures DigitsValue(NatToString(n)) == n
    decreases n
  {
    if n >= 10 {
      NatToStringDigits(n / 10);
      var s := NatToString(n);
      assert s[..|s| - 1] == NatToString(n / 10);
    }
  }

  /** A printed integer reads back as itself, whatever its size. */
  lemma PrintedIntegerValue(n: int)
    ensures IntegerValue(IntToString(n)) == Some(n)
  {
    NatToStringDigits(if n < 0 then -n else n);
    var s := IntToString(n);
    assert !IsParseWhite(s[0]) && !IsParseWhite(s[|s| - 1]);
    assert TrimParseWhite(s) == s;
    if n < 0 {
      assert s[1..] == NatToString(-n);
    }
  }

  /** Parsing a printed 32-bit integer gives it back. */
  lemma IntToStringRoundTrip(n: int)
    requires Int32Min <= n <= Int32Max
    ensures TryParseInt(IntToString(n)) == Some(n)
  {
    PrintedIntegerValue(n);
  }

  /** Distinct integers print differently. */
  lemma IntToStringInjective(m: int, n: int)
    requires Int32Min <= m <= Int32Max && Int32Min <= n <= Int32Max
    requires IntToString(m) == IntToString(n)
    ensures m == n
  {
    IntToStringRoundTrip(m);
    IntToStringRoundTrip(n);
  }

  // ---- DateTime ----

  /** 100-nanosecond ticks in a day. */
  const TicksPerDay: int := 864_000_000_000
  /** DateTime.MinValue, midnight on 1 January 0001. */
  const MinTicks: int := 0
  /** DateTime.MaxValue, the last tick of 31 December 9999. */
  const MaxTicks: int := 3_155_378_975_999_999_999

  /** A DateTime, as its Ticks. */
  type DateTime = t: int | MinTicks <= t <= MaxTicks
}
