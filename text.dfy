/** The pieces of Go's `strings` and `unicode` packages the provider relies on,
    over strings as sequences of characters, plus decimal digit strings. */
module Text {

  /** `unicode.IsSpace`: the Latin-1 spaces '\t', '\n', '\v', '\f', '\r', ' ',
      U+0085 and U+00A0, and above Latin-1 the characters with the Unicode
      White_Space property. */
  predicate IsSpace(c: char) {
    || c == '\t' || c == '\n' || c == '\U{000B}' || c == '\U{000C}' || c == '\r' || c == ' '
    || c == '\U{0085}' || c == '\U{00A0}' || c == '\U{1680}'
    || ('\U{2000}' <= c <= '\U{200A}')
    || c == '\U{2028}' || c == '\U{2029}' || c == '\U{202F}' || c == '\U{205F}' || c == '\U{3000}'
  }

  /** `s` with its leading white space removed: a suffix of `s` that starts
      with a non-space, everything before it being space. */
  function TrimLeftSpace(s: string): (r: string)
    ensures |r| <= |s| && r == s[|s| - |r|..]
    ensures forall k | 0 <= k < |s| - |r| :: IsSpace(s[k])
    ensures r != [] ==> !IsSpace(r[0])
  {
    if s != [] && IsSpace(s[0]) then TrimLeftSpace(s[1..]) else s
  }

  /** `s` with its trailing white space removed: a prefix of `s` that ends
      with a non-space, everything after it being space. */
  function TrimRightSpace(s: string): (r: string)
    ensures |r| <= |s| && r == s[..|r|]
    ensures forall k | |r| <= k < |s| :: IsSpace(s[k])
    ensures r != [] ==> !IsSpace(r[|r| - 1])
  {
    if s != [] && IsSpace(s[|s| - 1]) then TrimRightSpace(s[..|s| - 1]) else s
  }

  /** `strings.TrimSpace`. */
  function TrimSpace(s: string): string {
    TrimRightSpace(TrimLeftSpace(s))
  }

  /** The number of white-space characters TrimSpace removes at the front. */
  function LeadingSpace(s: string): nat {
    |s| - |TrimLeftSpace(s)|
  }

  /** TrimSpace removes white space at both ends and nothing else: its result
      is the infix of `s` between a run of leading and a run of trailing white
      space, and it neither starts nor ends with white space. */
  lemma TrimSpaceIsInfix(s: string)
    ensures var t, i := TrimSpace(s), LeadingSpace(s);
      && i + |t| <= |s|
      && t == s[i..i + |t|]
      && (forall k | 0 <= k < i :: IsSpace(s[k]))
      && (forall k | i + |t| <= k < |s| :: IsSpace(s[k]))
      && (t != [] ==> !IsSpace(t[0]) && !IsSpace(t[|t| - 1]))
  {
    TrimmedIsInfix(IsSpace, s, TrimLeftSpace(s), TrimSpace(s));
  }

  /** The two trimming steps, with the trimmed characters given by any
      predicate `p`: a suffix `l` of `s` after a run of `p`, and a prefix `t`
      of `l` before a run of `p`, make `t` an infix of `s` between the runs. */
  lemma TrimmedIsInfix(p: char -> bool, s: string, l: string, t: string)
    requires |l| <= |s| && l == s[|s| - |l|..]
    requires forall k | 0 <= k < |s| - |l| :: p(s[k])
    requires l != [] ==> !p(l[0])
    requires |t| <= |l| && t == l[..|t|]
    requires forall k | |t| <= k < |l| :: p(l[k])
    requires t != [] ==> !p(t[|t| - 1])
    ensures var i := |s| - |l|;
      && i + |t| <= |s|
      && t == s[i..i + |t|]
      && (forall k | 0 <= k < i :: p(s[k]))
      && (forall k | i + |t| <= k < |s| :: p(s[k]))
      && (t != [] ==> !p(t[0]) && !p(t[|t| - 1]))
  {
    var i := |s| - |l|;
    forall k | i + |t| <= k < |s|
      ensures p(s[k])
    {
      assert s[k] == l[k - i];
    }
    if t != [] {
      assert t[0] == l[0];
    }
  }

  /** `strings.HasPrefix`. */
  predicate HasPrefix(s: string, prefix: string) {
    |prefix| <= |s| && s[..|prefix|] == prefix
  }

  /** `strings.HasSuffix`. */
  predicate HasSuffix(s: string, suffix: string) {
    |suffix| <= |s| && s[|s| - |suffix|..] == suffix
  }

  /** `strings.TrimPrefix`: drops one copy of `prefix` if `s` starts with it. */
  function TrimPrefix(s: string, prefix: string): (r: string)
    ensures HasPrefix(s, prefix) ==> s == prefix + r
    ensures !HasPrefix(s, prefix) ==> r == s
  {
    if HasPrefix(s, prefix) then s[|prefix|..] else s
  }

  /** `strings.TrimSuffix`: drops one copy of `suffix` if `s` ends with it. */
  function TrimSuffix(s: string, suffix: string): (r: string)
    ensures HasSuffix(s, suffix) ==> s == r + suffix
    ensures !HasSuffix(s, suffix) ==> r == s
  {
    if HasSuffix(s, suffix) then s[..|s| - |suffix|] else s
  }

  /** The position of the first `c` in `s`, or |s| when there is none. */
  function IndexOf(s: string, c: char): (i: nat)
    ensures i <= |s|
    ensures i < |s| ==> s[i] == c
    ensures forall k | 0 <= k < i :: s[k] != c
  {
    if s == [] then 0
    else if s[0] == c then 0
    else 1 + IndexOf(s[1..], c)
  }

  predicate IsDigit(c: char) { '0' <= c <= '9' }

  function DigitValue(c: char): (d: nat)
    requires IsDigit(c)
    ensures d <= 9
  {
    c as int - '0' as int
  }

  function DigitChar(d: nat): (c: char)
    requires d <= 9
    ensures IsDigit(c) && DigitValue(c) == d
  {
    ('0' as int + d) as char
  }

  predicate AllDigits(s: string) {
    forall i | 0 <= i < |s| :: IsDigit(s[i])
  }

  /** The number a string of decimal digits denotes. */
  function DecimalValue(s: string): nat
    requires AllDigits(s)
  {
    if s == [] then 0 else DecimalValue(s[..|s| - 1]) * 10 + DigitValue(s[|s| - 1])
  }

  function Pow10(n: nat): (p: nat)
    ensures p >= 1
  {
    if n == 0 then 1 else 10 * Pow10(n - 1)
  }

  /** The canonical decimal spelling of `n`: digits only, no leading zero
      (except for 0 itself), denoting `n`. */
  function DecimalString(n: nat): (s: string)
    ensures 0 < |s| && AllDigits(s) && DecimalValue(s) == n
    ensures n > 0 ==> s[0] != '0'
  {
    if n < 10 then [DigitChar(n)]
    else
      var s := DecimalString(n / 10) + [DigitChar(n % 10)];
      assert s[..|s| - 1] == DecimalString(n / 10);
      s
  }

  /** A digit string of length n denotes a number below 10^n, and at least
      10^(n-1) when it does not start with '0'. */
  lemma {:induction false} DecimalValueBounds(s: string)
    requires 0 < |s| && AllDigits(s)
    ensures DecimalValue(s) < Pow10(|s|)
    ensures s[0] != '0' ==> Pow10(|s| - 1) <= DecimalValue(s)
  {
    if |s| > 1 {
      var init := s[..|s| - 1];
      assert init[0] == s[0];
      DecimalValueBounds(init);
    }
  }

  /** The value of a five-digit string, digit by digit. */
  lemma DecimalValueOfFive(s: string)
    requires |s| == 5 && AllDigits(s)
    ensures DecimalValue(s) == 10000 * DigitValue(s[0]) + 1000 * DigitValue(s[1])
                               + 100 * DigitValue(s[2]) + 10 * DigitValue(s[3]) + DigitValue(s[4])
  {
    assert s[..5] == s;
    assert s[..4][..3] == s[..3] && s[..3][..2] == s[..2] && s[..2][..1] == s[..1] && s[..1][..0] == [];
    assert DecimalValue(s[..1]) == DigitValue(s[0]);
    assert DecimalValue(s[..2]) == DecimalValue(s[..1]) * 10 + DigitValue(s[1]);
    assert DecimalValue(s[..3]) == DecimalValue(s[..2]) * 10 + DigitValue(s[2]);
    assert DecimalValue(s[..4]) == DecimalValue(s[..3]) * 10 + DigitValue(s[3]);
    assert DecimalValue(s) == DecimalValue(s[..4]) * 10 + DigitValue(s[4]);
  }
}
