/** Character and string helpers the services rely on: .NET's
    `char.IsWhiteSpace`, SQLite's `lower()`, ordinal string ordering
    (SQLite's BINARY collation) and the decimal rendering of `int.ToString()`. */
module Text {
  import Sorting

  /** .NET `char.IsWhiteSpace`: the Unicode separators (categories Zs, Zl,
      Zp) and the control characters U+0009-U+000D and U+0085. */
  predicate IsWhiteSpace(c: char) {
    || ('\U{0009}' <= c <= '\U{000D}') || c == '\U{0020}' || c == '\U{0085}' || c == '\U{00A0}'
    || c == '\U{1680}' || ('\U{2000}' <= c <= '\U{200A}') || c == '\U{2028}' || c == '\U{2029}'
    || c == '\U{202F}' || c == '\U{205F}' || c == '\U{3000}'
  }

  /** `string.IsNullOrWhiteSpace` for a non-null string: empty, or blanks only. */
  predicate IsBlank(s: string) {
    forall i :: 0 <= i < |s| ==> IsWhiteSpace(s[i])
  }

  /** Whether `c` is a capital letter of the Latin-1 range: 'A'..'Z', or
      U+00C0..U+00DE other than the multiplication sign U+00D7. */
  predicate IsLatin1Capital(c: char) {
    ('A' <= c <= 'Z') || ('\U{00C0}' <= c <= '\U{00DE}' && c != '\U{00D7}')
  }

  /** Whether `c` is a capital that SQLite's `lower()` leaves alone. */
  predicate IsAccentedCapital(c: char) {
    IsLatin1Capital(c) && !('A' <= c <= 'Z')
  }

  /** `c` and `d` are the same letter in different case: `d` is the small
      letter of the capital `c` (32 code points on, within Latin-1). */
  predicate CasePair(c: char, d: char) {
    IsLatin1Capital(c) && d as int == c as int + 32
  }

  /** The letter `c` lower-cased by SQLite's `lower()`: 'A'..'Z' only. */
  function LowerAsciiChar(c: char): char {
    if 'A' <= c <= 'Z' then (c as int + 32) as char else c
  }

  /** The letter `c` lower-cased by .NET's `char.ToLower`, for Latin-1. */
  function LowerLatin1Char(c: char): char {
    if IsLatin1Capital(c) then (c as int + 32) as char else c
  }

  /** SQLite's `lower()`: folds 'A'..'Z' only; every other character is kept. */
  function ToLowerAscii(s: string): (r: string)
    ensures |r| == |s|
    ensures forall i :: 0 <= i < |s| ==> r[i] == LowerAsciiChar(s[i])
  {
    seq(|s|, i requires 0 <= i < |s| => LowerAsciiChar(s[i]))
  }

  /** .NET's `string.ToLower()` on the Latin-1 letters: the accented
      capitals fold as well as 'A'..'Z'. */
  function ToLowerLatin1(s: string): (r: string)
    ensures |r| == |s|
    ensures forall i :: 0 <= i < |s| ==> r[i] == LowerLatin1Char(s[i])
  {
    seq(|s|, i requires 0 <= i < |s| => LowerLatin1Char(s[i]))
  }

  /** Case-insensitive equality: both sides lower-cased the same way. */
  predicate EqualsIgnoreCase(a: string, b: string) {
    ToLowerLatin1(a) == ToLowerLatin1(b)
  }

  /** The comparison `column.ToLower() == value.ToLower()` inside a query:
      the column is lower-cased by SQLite, the captured value by .NET
      before the query is sent. */
  predicate LowerMatches(column: string, value: string) {
    ToLowerAscii(column) == ToLowerLatin1(value)
  }

  /** Whether `s` has no capital that SQLite's `lower()` leaves alone. */
  predicate NoAccentedCapitals(s: string) {
    forall i :: 0 <= i < |s| ==> !IsAccentedCapital(s[i])
  }

  /** Two characters fold to the same one exactly when they are equal or a
      capital and its small letter. */
  lemma LowerLatin1CharIff(c: char, d: char)
    ensures LowerLatin1Char(c) == LowerLatin1Char(d) <==> c == d || CasePair(c, d) || CasePair(d, c)
  {
  }

  /** Case-insensitive equality, letter by letter: the same length, and at
      each position the same character or the same letter in the other case. */
  lemma EqualsIgnoreCaseIff(a: string, b: string)
    ensures EqualsIgnoreCase(a, b) <==>
      |a| == |b| && forall i :: 0 <= i < |a| ==> a[i] == b[i] || CasePair(a[i], b[i]) || CasePair(b[i], a[i])
  {
    if |a| == |b| {
      forall i | 0 <= i < |a|
        ensures ToLowerLatin1(a)[i] == ToLowerLatin1(b)[i] <==> a[i] == b[i] || CasePair(a[i], b[i]) || CasePair(b[i], a[i])
      {
        LowerLatin1CharIff(a[i], b[i]);
      }
      if forall i :: 0 <= i < |a| ==> a[i] == b[i] || CasePair(a[i], b[i]) || CasePair(b[i], a[i]) {
        assert ToLowerLatin1(a) == ToLowerLatin1(b);
      }
    }
  }

  /** On text without accented capitals SQLite's `lower()` and .NET's
      `ToLower()` agree. */
  lemma FoldsAgree(s: string)
    requires NoAccentedCapitals(s)
    ensures ToLowerAscii(s) == ToLowerLatin1(s)
  {
  }

  /** The query's comparison never matches two different names: a match is
      a case-insensitive equality. */
  lemma LowerMatchesSound(column: string, value: string)
    requires LowerMatches(column, value)
    ensures EqualsIgnoreCase(column, value)
  {
    forall i | 0 <= i < |column| ensures !IsAccentedCapital(column[i]) {
      assert ToLowerAscii(column)[i] == ToLowerLatin1(value)[i];
    }
    FoldsAgree(column);
  }

  /** The query's comparison is exact on a column value without accented
      capitals. */
  lemma LowerMatchesExact(column: string, value: string)
    requires NoAccentedCapitals(column)
    ensures LowerMatches(column, value) <==> EqualsIgnoreCase(column, value)
  {
    FoldsAgree(column);
  }

  /** The query's comparison misses a name with an accented capital even
      against itself: "ÉCOLE" lower-cases to "École" in SQLite and to
      "école" in .NET. */
  lemma AccentedCapitalMissesItself(s: string)
    requires |s| > 0 && IsAccentedCapital(s[0])
    ensures !LowerMatches(s, s)
    ensures EqualsIgnoreCase(s, s)
  {
    assert ToLowerAscii(s)[0] != ToLowerLatin1(s)[0];
  }

  /** Ordinal (code-unit by code-unit) ordering: a prefix comes first. */
  predicate OrdinalLe(a: string, b: string)
    decreases |a|
  {
    if a == [] then true
    else if b == [] then false
    else if a[0] != b[0] then a[0] < b[0]
    else OrdinalLe(a[1..], b[1..])
  }

  lemma {:induction false} OrdinalLeTotal(a: string, b: string)
    ensures OrdinalLe(a, b) || OrdinalLe(b, a)
    decreases |a|
  {
    if a != [] && b != [] && a[0] == b[0] {
      OrdinalLeTotal(a[1..], b[1..]);
    }
  }

  lemma {:induction false} OrdinalLeTransitive(a: string, b: string, c: string)
    requires OrdinalLe(a, b) && OrdinalLe(b, c)
    ensures OrdinalLe(a, c)
    decreases |a|
  {
    if a != [] && b != [] && c != [] && a[0] == b[0] && b[0] == c[0] {
      OrdinalLeTransitive(a[1..], b[1..], c[1..]);
    }
  }

  lemma {:induction false} OrdinalLeAntisymmetric(a: string, b: string)
    requires OrdinalLe(a, b) && OrdinalLe(b, a)
    ensures a == b
    decreases |a|
  {
    if a != [] && b != [] {
      OrdinalLeAntisymmetric(a[1..], b[1..]);
      assert a == [a[0]] + a[1..] && b == [b[0]] + b[1..];
    }
  }

  function DigitChar(d: int): (c: char)
    requires 0 <= d <= 9
    ensures '0' <= c <= '9'
  {
    (48 + d) as char
  }

  /** `int.ToString()` of a non-negative value: decimal digits, no leading zero. */
  function NatToString(n: nat): (s: string)
    ensures |s| >= 1
    ensures forall i :: 0 <= i < |s| ==> '0' <= s[i] <= '9'
    ensures |s| > 1 ==> s[0] != '0'
    decreases n
  {
    if n < 10 then [DigitChar(n)]
    else NatToString(n / 10) + [DigitChar(n % 10)]
  }

  /** The value of a string of decimal digits (the inverse of `NatToString`). */
  function DigitsValue(s: string): int
    decreases |s|
  {
    if s == [] then 0
    else 10 * DigitsValue(s[..|s| - 1]) + (s[|s| - 1] as int - 48)
  }

  /** Rendering a number in decimal loses nothing: the digits give it back. */
  lemma {:induction false} NatToStringRoundTrip(n: nat)
    ensures DigitsValue(NatToString(n)) == n
    decreases n
  {
    if n >= 10 {
      NatToStringRoundTrip(n / 10);
      var s := NatToString(n);
      assert s[..|s| - 1] == NatToString(n / 10);
    }
  }

  /** Distinct numbers render as distinct strings. */
  lemma NatToStringInjective(m: nat, n: nat)
    requires NatToString(m) == NatToString(n)
    ensures m == n
  {
    NatToStringRoundTrip(m);
    NatToStringRoundTrip(n);
  }

  /** `int.ToString()`: a minus sign before the digits of a negative value. */
  function IntToString(n: int): string {
    if n < 0 then "-" + NatToString(-n) else NatToString(n)
  }

  /** `n` zero-padded to at least `width` digits (a .NET "yyyy"-style field). */
  function PadDigits(n: nat, width: nat): (s: string)
    ensures |s| == if |NatToString(n)| >= width then |NatToString(n)| else width
    ensures forall i :: 0 <= i < |s| ==> '0' <= s[i] <= '9'
    ensures DigitsValue(s) == n
    decreases width
  {
    var d := NatToString(n);
    NatToStringRoundTrip(n);
    if |d| >= width then d
    else
      var rest := PadDigits(n, width - 1);
      LeadingZeroValue(rest);
      "0" + rest
  }

  /** A leading zero does not change the value of a digit string. */
  lemma {:induction false} LeadingZeroValue(s: string)
    ensures DigitsValue("0" + s) == DigitsValue(s)
    decreases |s|
  {
    if s != [] {
      var t := "0" + s;
      assert t[..|t| - 1] == "0" + s[..|s| - 1];
      LeadingZeroValue(s[..|s| - 1]);
    }
  }

  /** Ordinal order is a valid sort order for `OrderBy` on strings. */
  lemma OrdinalLeIsTotalPreorder()
    ensures Sorting.TotalPreorder(OrdinalLe)
  {
    forall a, b ensures OrdinalLe(a, b) || OrdinalLe(b, a) {
      OrdinalLeTotal(a, b);
    }
    forall a, b, c | OrdinalLe(a, b) && OrdinalLe(b, c) ensures OrdinalLe(a, c) {
      OrdinalLeTransitive(a, b, c);
    }
  }
}
