/** String helpers of the .NET base library that the modelled code relies on:
    null-or-whitespace tests, TrimEnd, ordinal case-insensitive comparison,
    upper-casing and the decimal rendering of an int. */
module Strings {

  /** A possibly-null reference: `None` stands for C#'s `null`. */
  datatype Option<+T> = None | Some(value: T)

  /** `char.IsWhiteSpace`: the Unicode space, line and paragraph separators
      together with the control characters U+0009..U+000D and U+0085. */
  predicate IsWhiteSpace(c: char) {
    || ('\t' <= c <= '\r')
    || c == ' '
    || c == '\U{85}'
    || c == '\U{A0}'
    || c == '\U{1680}'
    || ('\U{2000}' <= c <= '\U{200A}')
    || c == '\U{2028}'
    || c == '\U{2029}'
    || c == '\U{202F}'
    || c == '\U{205F}'
    || c == '\U{3000}'
  }

  /** A string made only of whitespace (the empty string included). */
  predicate IsBlank(s: string) {
    forall i | 0 <= i < |s| :: IsWhiteSpace(s[i])
  }

  /** `string.IsNullOrWhiteSpace`. */
  predicate IsNullOrWhiteSpace(s: Option<string>) {
    s.None? || IsBlank(s.value)
  }

  predicate EndsWith(s: string, c: char) {
    |s| > 0 && s[|s| - 1] == c
  }

  predicate StartsWith(s: string, c: char) {
    |s| > 0 && s[0] == c
  }

  /** `s.TrimEnd(c)`: removes every trailing occurrence of `c`. The result is
      the longest prefix of `s` that does not end with `c` and after which
      only `c` follows. */
  function TrimEnd(s: string, c: char): (r: string)
    ensures r <= s
    ensures !EndsWith(r, c)
    ensures forall i | |r| <= i < |s| :: s[i] == c
    decreases |s|
  {
    if EndsWith(s, c) then TrimEnd(s[..|s| - 1], c) else s
  }

  /** Trailing occurrences of `c` do not change what TrimEnd keeps. */
  lemma {:induction false} TrimEndAbsorbs(s: string, c: char)
    ensures TrimEnd(s + [c], c) == TrimEnd(s, c)
  {
    assert (s + [c])[..|s|] == s;
  }

  /** TrimEnd is determined by its contract: any prefix of `s` that does not
      end with `c` and is followed only by `c` is TrimEnd(s, c). */
  lemma {:induction false} TrimEndUnique(s: string, c: char, r: string)
    requires r <= s && !EndsWith(r, c)
    requires forall i | |r| <= i < |s| :: s[i] == c
    ensures r == TrimEnd(s, c)
    decreases |s|
  {
    if |s| > |r| {
      assert s[|s| - 1] == c;
      assert r <= s[..|s| - 1];
      TrimEndUnique(s[..|s| - 1], c, r);
    }
  }

  /** The upper-case mapping used by `ToUpper` and `OrdinalIgnoreCase`,
      restricted to ASCII letters. */
  function UpperChar(c: char): (r: char)
    ensures 'a' <= c <= 'z' ==> 'A' <= r <= 'Z' && r as int == c as int - 32
    ensures !('a' <= c <= 'z') ==> r == c
  {
    if 'a' <= c <= 'z' then (c as int - 32) as char else c
  }

  /** `s.ToUpper()`: maps each character on its own, so the length is kept. */
  function ToUpper(s: string): string {
    seq(|s|, i requires 0 <= i < |s| => UpperChar(s[i]))
  }

  /** `string.Equals(a, b, StringComparison.OrdinalIgnoreCase)`. */
  predicate EqualsIgnoreCase(a: string, b: string) {
    |a| == |b| && forall i | 0 <= i < |a| :: UpperChar(a[i]) == UpperChar(b[i])
  }

  /** OrdinalIgnoreCase is an equivalence: the comparison of two URIs
      does not depend on the order of its arguments, and equal-ignoring-case
      chains collapse. */
  lemma EqualsIgnoreCaseIsEquivalence(a: string, b: string, c: string)
    ensures EqualsIgnoreCase(a, a)
    ensures EqualsIgnoreCase(a, b) ==> EqualsIgnoreCase(b, a)
    ensures EqualsIgnoreCase(a, b) && EqualsIgnoreCase(b, c) ==> EqualsIgnoreCase(a, c)
  {
  }

  /** Comparing ignoring case is comparing the upper-cased strings. */
  lemma EqualsIgnoreCaseToUpper(a: string, b: string)
    ensures EqualsIgnoreCase(a, b) <==> ToUpper(a) == ToUpper(b)
  {
    if ToUpper(a) == ToUpper(b) {
      assert |a| == |ToUpper(a)| == |ToUpper(b)| == |b|;
      assert forall i | 0 <= i < |a| :: UpperChar(a[i]) == ToUpper(a)[i] == ToUpper(b)[i] == UpperChar(b[i]);
    }
    if EqualsIgnoreCase(a, b) {
      assert forall i | 0 <= i < |a| :: ToUpper(a)[i] == ToUpper(b)[i];
    }
  }

  /** `s.Replace(" ", "")`: drops every space character and nothing else;
      tabs and other white space stay. */
  function RemoveSpaces(s: string): (r: string)
    ensures multiset(r) == multiset(s)[' ' := 0]
    ensures |r| == |s| - multiset(s)[' ']
    ensures forall i | 0 <= i < |r| :: r[i] != ' '
    decreases |s|
  {
    if |s| == 0 then ""
    else
      assert s == [s[0]] + s[1..];
      if s[0] == ' ' then RemoveSpaces(s[1..])
      else [s[0]] + RemoveSpaces(s[1..])
  }

  /** `Replace` keeps the order of what it keeps: it works piece by piece,
      and a single character is dropped exactly when it is a space. */
  lemma {:induction false} RemoveSpacesAppend(a: string, b: string)
    ensures RemoveSpaces(a + b) == RemoveSpaces(a) + RemoveSpaces(b)
    ensures |a| == 1 ==> RemoveSpaces(a) == if a[0] == ' ' then [] else a
    decreases |a|
  {
    if |a| > 0 {
      assert (a + b)[0] == a[0];
      assert (a + b)[1..] == a[1..] + b;
      RemoveSpacesAppend(a[1..], b);
      if |a| == 1 {
        assert a[1..] == [];
      }
    } else {
      assert a + b == b;
    }
  }

  /** Upper-casing and removing spaces commute: upper-casing neither makes
      nor removes a space. */
  lemma {:induction false} RemoveSpacesToUpper(s: string)
    ensures RemoveSpaces(ToUpper(s)) == ToUpper(RemoveSpaces(s))
    decreases |s|
  {
    if |s| > 0 {
      assert ToUpper(s)[1..] == ToUpper(s[1..]);
      RemoveSpacesToUpper(s[1..]);
      if s[0] != ' ' {
        assert ToUpper([s[0]] + RemoveSpaces(s[1..])) == [UpperChar(s[0])] + ToUpper(RemoveSpaces(s[1..]));
      }
    }
  }

  /** Upper-casing twice is upper-casing once. */
  lemma ToUpperIdempotent(s: string)
    ensures ToUpper(ToUpper(s)) == ToUpper(s)
  {
  }

  /** Upper-casing does not change whether a string is blank. */
  lemma ToUpperKeepsBlank(s: string)
    ensures IsBlank(ToUpper(s)) == IsBlank(s)
  {
    assert forall i | 0 <= i < |s| :: IsWhiteSpace(ToUpper(s)[i]) == IsWhiteSpace(s[i]);
  }

  function DigitChar(d: int): (c: char)
    requires 0 <= d < 10
    ensures '0' <= c <= '9' && c as int - '0' as int == d
  {
    "0123456789"[d]
  }

  predicate IsDigit(c: char) {
    '0' <= c <= '9'
  }

  /** The decimal digits of a natural number, without leading zeros. */
  function NatToDecimal(n: nat): (r: string)
    ensures |r| > 0
    ensures forall i | 0 <= i < |r| :: IsDigit(r[i])
    ensures |r| > 1 ==> r[0] != '0'
    decreases n
  {
    if n < 10 then [DigitChar(n)] else NatToDecimal(n / 10) + [DigitChar(n % 10)]
  }

  /** `int.ToString()` with the ASCII hyphen-minus as negative sign (the
      sign of the invariant culture and most others): a leading '-' for
      negative values, then the decimal digits. */
  function IntToDecimal(n: int): (r: string)
    ensures |r| > 0
    ensures (r[0] == '-') == (n < 0)
    ensures forall i | (if n < 0 then 1 else 0) <= i < |r| :: IsDigit(r[i])
  {
    if n < 0 then "-" + NatToDecimal(-n) else NatToDecimal(n)
  }

  /** Reads back a sequence of decimal digits. */
  function ParseNat(s: string): nat
    requires forall i | 0 <= i < |s| :: IsDigit(s[i])
    decreases |s|
  {
    if |s| == 0 then 0
    else
      assert IsDigit(s[|s| - 1]);
      10 * ParseNat(s[..|s| - 1]) + (s[|s| - 1] as int - '0' as int)
  }

  /** Reads back an optionally signed decimal integer. */
  function ParseInt(s: string): Option<int> {
    if |s| > 0 && s[0] == '-' then
      if |s| > 1 && forall i | 1 <= i < |s| :: IsDigit(s[i]) then Some(0 - ParseNat(s[1..]) as int) else None
    else if |s| > 0 && forall i | 0 <= i < |s| :: IsDigit(s[i]) then Some(ParseNat(s))
    else None
  }

  lemma {:induction false} NatToDecimalRoundTrip(n: nat)
    ensures ParseNat(NatToDecimal(n)) == n
    decreases n
  {
    if n >= 10 {
      var d := NatToDecimal(n / 10);
      var s := d + [DigitChar(n % 10)];
      assert s[..|s| - 1] == d;
      NatToDecimalRoundTrip(n / 10);
    }
  }

  /** The decimal rendering of an int is read back to the same int, so the
      rendering loses nothing. */
  lemma {:induction false} IntToDecimalRoundTrip(n: int)
    ensures ParseInt(IntToDecimal(n)) == Some(n)
  {
    var s := IntToDecimal(n);
    if n < 0 {
      var d := NatToDecimal(-n);
      assert s == "-" + d;
      assert s[1..] == d;
      assert forall i | 1 <= i < |s| :: IsDigit(s[i]) by {
        forall i | 1 <= i < |s| ensures IsDigit(s[i]) { assert s[i] == d[i - 1]; }
      }
      NatToDecimalRoundTrip(-n);
    } else {
      NatToDecimalRoundTrip(n);
    }
  }

  /** The number of UTF-16 code units a character takes: two (a surrogate
      pair) outside the Basic Multilingual Plane, one inside it. */
  function CodeUnits(c: char): (n: nat)
    ensures n == 1 || n == 2
    ensures n == 2 <==> c as int > 0xFFFF
  {
    if c as int > 0xFFFF then 2 else 1
  }

  /** `string.Length`: .NET strings are UTF-16, so it counts code units, not
      characters. */
  function Utf16Length(s: string): (n: nat)
    ensures |s| <= n <= 2 * |s|
    ensures (forall i | 0 <= i < |s| :: s[i] as int <= 0xFFFF) ==> n == |s|
    decreases |s|
  {
    if |s| == 0 then 0
    else
      assert forall i | 0 <= i < |s| - 1 :: s[1..][i] == s[i + 1];
      CodeUnits(s[0]) + Utf16Length(s[1..])
  }

  lemma {:induction false} Utf16LengthAppend(a: string, b: string)
    ensures Utf16Length(a + b) == Utf16Length(a) + Utf16Length(b)
    decreases |a|
  {
    if |a| > 0 {
      assert (a + b)[0] == a[0];
      assert (a + b)[1..] == a[1..] + b;
      Utf16LengthAppend(a[1..], b);
    } else {
      assert a + b == b;
    }
  }

  /** Removing the spaces removes one code unit per space. */
  lemma {:induction false} Utf16LengthRemoveSpaces(s: string)
    ensures Utf16Length(RemoveSpaces(s)) == Utf16Length(s) - multiset(s)[' ']
    decreases |s|
  {
    if |s| > 0 {
      assert s == [s[0]] + s[1..];
      Utf16LengthRemoveSpaces(s[1..]);
      if s[0] != ' ' {
        var t := [s[0]] + RemoveSpaces(s[1..]);
        assert t[1..] == RemoveSpaces(s[1..]);
      }
    }
  }

  /** Upper-casing keeps the number of code units. */
  lemma {:induction false} Utf16LengthToUpper(s: string)
    ensures Utf16Length(ToUpper(s)) == Utf16Length(s)
    decreases |s|
  {
    if |s| > 0 {
      assert ToUpper(s)[1..] == ToUpper(s[1..]);
      Utf16LengthToUpper(s[1..]);
    }
  }

  function Min(a: int, b: int): int {
    if a < b then a else b
  }
}
