/** String helpers shared by the model: the parts of Python's `str` behaviour
    the core relies on (lower-casing, stripping, substring and prefix tests,
    splitting at a separator, decimal printing and zero padding). Characters
    are treated as ASCII where Python would consult the Unicode tables. */
module Text {

  predicate IsDigit(c: char) {
    '0' <= c <= '9'
  }

  predicate IsAsciiLetter(c: char) {
    ('a' <= c <= 'z') || ('A' <= c <= 'Z')
  }

  /** Python's `str.isspace` (and the `\s` class of `re`) restricted to the
      ASCII and Latin-1 whitespace characters. */
  predicate IsSpace(c: char) {
    c == ' ' || c == '\t' || c == '\n' || c == '\r' || c == '\U{B}' || c == '\U{C}'
    || ('\U{1C}' <= c <= '\U{1F}') || c == '\U{85}' || c == '\U{A0}'
  }

  predicate AllDigits(s: string) {
    forall i :: 0 <= i < |s| ==> IsDigit(s[i])
  }

  predicate AllSpace(s: string) {
    forall i :: 0 <= i < |s| ==> IsSpace(s[i])
  }

  function LowerChar(c: char): char {
    if 'A' <= c <= 'Z' then (c as int + 32) as char else c
  }

  /** `str.lower()` on ASCII letters. */
  function Lower(s: string): (r: string)
    ensures |r| == |s|
    ensures forall i :: 0 <= i < |s| ==> r[i] == LowerChar(s[i])
  {
    if s == [] then [] else [LowerChar(s[0])] + Lower(s[1..])
  }

  function TrimStart(s: string): string {
    if |s| > 0 && IsSpace(s[0]) then TrimStart(s[1..]) else s
  }

  function TrimEnd(s: string): string {
    if |s| > 0 && IsSpace(s[|s| - 1]) then TrimEnd(s[..|s| - 1]) else s
  }

  /** `str.strip()`: drops leading and trailing whitespace. */
  function Strip(s: string): string {
    TrimEnd(TrimStart(s))
  }

  lemma {:induction false} TrimStartEmptyIffBlank(s: string)
    ensures TrimStart(s) == [] <==> AllSpace(s)
  {
    if |s| > 0 && IsSpace(s[0]) {
      TrimStartEmptyIffBlank(s[1..]);
      assert AllSpace(s) <==> AllSpace(s[1..]) by {
        if AllSpace(s[1..]) {
          forall i | 0 <= i < |s| ensures IsSpace(s[i]) {
            if i > 0 { assert s[i] == s[1..][i - 1]; }
          }
        }
      }
    } else if |s| > 0 {
      assert !IsSpace(s[0]);
    }
  }

  lemma {:induction false} TrimEndOfNonBlankIsNonEmpty(s: string)
    requires !AllSpace(s)
    ensures TrimEnd(s) != []
  {
    if |s| > 0 && IsSpace(s[|s| - 1]) {
      var t := s[..|s| - 1];
      if AllSpace(t) {
        forall i | 0 <= i < |s| ensures IsSpace(s[i]) {
          if i < |s| - 1 { assert s[i] == t[i]; }
        }
        assert false;
      }
      TrimEndOfNonBlankIsNonEmpty(t);
    }
  }

  lemma {:induction false} TrimStartKeepsNonBlank(s: string)
    requires !AllSpace(s)
    ensures !AllSpace(TrimStart(s))
  {
    TrimStartEmptyIffBlank(s);
    if |s| > 0 && IsSpace(s[0]) {
      if AllSpace(s[1..]) {
        forall i | 0 <= i < |s| ensures IsSpace(s[i]) {
          if i > 0 { assert s[i] == s[1..][i - 1]; }
        }
      }
      TrimStartKeepsNonBlank(s[1..]);
    }
  }

  /** Stripping leaves nothing exactly when the string is blank. */
  lemma StripEmptyIffBlank(s: string)
    ensures Strip(s) == [] <==> AllSpace(s)
  {
    if AllSpace(s) {
      TrimStartEmptyIffBlank(s);
    } else {
      TrimStartKeepsNonBlank(s);
      TrimEndOfNonBlankIsNonEmpty(TrimStart(s));
    }
  }

  /** Python's `p in s` for strings. */
  predicate IsSubstring(p: string, s: string) {
    exists i :: 0 <= i <= |s| - |p| && OccursAt(p, s, i)
  }

  predicate OccursAt(p: string, s: string, i: int) {
    0 <= i <= |s| - |p| && s[i..i + |p|] == p
  }

  /** `s.startswith(p)`. */
  predicate StartsWith(s: string, p: string) {
    |p| <= |s| && s[..|p|] == p
  }

  /** `s.endswith(p)`. */
  predicate EndsWith(s: string, p: string) {
    |p| <= |s| && s[|s| - |p|..] == p
  }

  /** `s.split(sep)[0]`: the text before the first `sep`, or all of `s`. */
  function BeforeFirst(s: string, sep: char): string {
    if s == [] then []
    else if s[0] == sep then []
    else [s[0]] + BeforeFirst(s[1..], sep)
  }

  /** `s.split(sep)[0]` is the longest prefix of `s` without `sep`: what
      follows it, if anything, is `sep`. */
  lemma {:induction false} BeforeFirstIsPrefix(s: string, sep: char)
    ensures StartsWith(s, BeforeFirst(s, sep))
    ensures sep !in BeforeFirst(s, sep)
    ensures |BeforeFirst(s, sep)| < |s| ==> s[|BeforeFirst(s, sep)|] == sep
  {
    if s != [] && s[0] != sep {
      BeforeFirstIsPrefix(s[1..], sep);
      var r := BeforeFirst(s[1..], sep);
      assert BeforeFirst(s, sep) == [s[0]] + r;
      assert s == [s[0]] + s[1..];
    }
  }

  function DigitChar(d: nat): char
    requires d < 10
  {
    ('0' as int + d) as char
  }

  function DigitValue(c: char): nat
    requires IsDigit(c)
  {
    c as int - '0' as int
  }

  /** The number a string of decimal digits denotes (Python's `int(s)` on
      such a string). */
  function DecimalValue(s: string): nat
    requires AllDigits(s)
  {
    if s == [] then 0 else DecimalValue(s[..|s| - 1]) * 10 + DigitValue(s[|s| - 1])
  }

  /** `str(n)` for a natural number. */
  function NatToString(n: nat): string
  {
    if n < 10 then [DigitChar(n)] else NatToString(n / 10) + [DigitChar(n % 10)]
  }

  /** Printing a number and reading it back gives the number: the printed
      form is a non-empty run of digits with no leading zero. */
  lemma {:induction false} NatToStringRoundTrip(n: nat)
    ensures |NatToString(n)| >= 1 && AllDigits(NatToString(n))
    ensures DecimalValue(NatToString(n)) == n
    ensures n > 0 ==> NatToString(n)[0] != '0'
  {
    var s := NatToString(n);
    if n >= 10 {
      NatToStringRoundTrip(n / 10);
      var p := NatToString(n / 10);
      assert s == p + [DigitChar(n % 10)];
      assert s[..|s| - 1] == p;
      assert s[0] == p[0];
    }
  }

  /** Distinct numbers print differently. */
  lemma NatToStringInjective(m: nat, n: nat)
    requires NatToString(m) == NatToString(n)
    ensures m == n
  {
    NatToStringRoundTrip(m);
    NatToStringRoundTrip(n);
  }

  /** `str(i)` for any integer. */
  function IntToString(i: int): string {
    if i < 0 then "-" + NatToString(-i) else NatToString(i)
  }

  /** `f"{n:04d}"` for a natural number: at least four digits, zero padded. */
  function PadZeros4(n: nat): (r: string)
    ensures |r| >= 4 && AllDigits(r)
    ensures DecimalValue(r) == n
  {
    NatToStringRoundTrip(n);
    var s := NatToString(n);
    if |s| >= 4 then s else ZeroPrefixed(s, 4 - |s|)
  }

  function Zeros(k: nat): (r: string)
    ensures |r| == k && AllDigits(r)
  {
    if k == 0 then [] else ['0'] + Zeros(k - 1)
  }

  /** Leading zeros add nothing to a decimal value. */
  lemma {:induction false} DecimalValueZeroPrefix(k: nat, s: string)
    requires AllDigits(s)
    ensures AllDigits(Zeros(k) + s) && DecimalValue(Zeros(k) + s) == DecimalValue(s)
  {
    var t := Zeros(k) + s;
    assert AllDigits(t) by {
      forall i | 0 <= i < |t| ensures IsDigit(t[i]) {
        if i < k { assert t[i] == Zeros(k)[i]; } else { assert t[i] == s[i - k]; }
      }
    }
    if s == [] {
      assert t == Zeros(k);
      ZerosValue(k);
    } else {
      var s' := s[..|s| - 1];
      DecimalValueZeroPrefix(k, s');
      assert t[..|t| - 1] == Zeros(k) + s';
      assert t[|t| - 1] == s[|s| - 1];
    }
  }

  lemma {:induction false} ZerosValue(k: nat)
    ensures DecimalValue(Zeros(k)) == 0
  {
    if k > 0 {
      var z := Zeros(k);
      ZerosValue(k - 1);
      assert z[..|z| - 1] == Zeros(k - 1) by {
        ZerosAreZero(k);
        ZerosAreZero(k - 1);
      }
      ZerosAreZero(k);
    }
  }

  lemma {:induction false} ZerosAreZero(k: nat)
    ensures forall i :: 0 <= i < k ==> Zeros(k)[i] == '0'
  {
    if k > 0 {
      ZerosAreZero(k - 1);
      forall i | 0 <= i < k ensures Zeros(k)[i] == '0' {
        if i > 0 { assert Zeros(k)[i] == Zeros(k - 1)[i - 1]; }
      }
    }
  }

  function ZeroPrefixed(s: string, k: nat): (r: string)
    requires AllDigits(s)
    ensures |r| == |s| + k && AllDigits(r) && DecimalValue(r) == DecimalValue(s)
  {
    DecimalValueZeroPrefix(k, s);
    Zeros(k) + s
  }

  /** `sep.join(xs)`. */
  function Join(xs: seq<string>, sep: string): string {
    if xs == [] then "" else if |xs| == 1 then xs[0] else xs[0] + sep + Join(xs[1..], sep)
  }

  predicate NoUpper(s: string) {
    forall i :: 0 <= i < |s| ==> !('A' <= s[i] <= 'Z')
  }

  /** Lower-casing a string without capitals changes nothing. */
  lemma LowerOfNoUpper(s: string)
    requires NoUpper(s)
    ensures Lower(s) == s
  {
    assert forall i :: 0 <= i < |s| ==> Lower(s)[i] == s[i];
  }

  /** Stripping a string whose ends are not blank changes nothing. */
  lemma StripOfSolidEnds(s: string)
    requires s != [] ==> !IsSpace(s[0]) && !IsSpace(s[|s| - 1])
    ensures Strip(s) == s
  {
    assert TrimStart(s) == s;
  }
}
