/** Character-level helpers shared by both versions of the agency tools.

    `IsDigitsOnly` stands for the library call `Utils.isDigitsOnly`, whose
    source is not part of this model: it is ASSUMED to hold exactly of the
    non-empty strings made of ASCII digits `'0'..'9'`.  `FirstDigitRun`
    stands for `Matcher.find()` with the pattern `[\d]+`: the leftmost,
    longest run of digits.  `DigitsValue` stands for `Long.parseLong` and
    `Integer.parseInt` on such a run, with unbounded naturals. */
module TextUtils {
  import opened Wrappers

  predicate IsDigit(c: char) {
    '0' <= c <= '9'
  }

  /** Every character of `s` is a digit (the empty string qualifies). */
  predicate AllDigits(s: string) {
    forall i :: 0 <= i < |s| ==> IsDigit(s[i])
  }

  /** The assumed meaning of `Utils.isDigitsOnly`. */
  predicate IsDigitsOnly(s: string) {
    |s| > 0 && AllDigits(s)
  }

  predicate ContainsDigit(s: string) {
    exists i :: 0 <= i < |s| && IsDigit(s[i])
  }

  /** `String.endsWith` for a one-character suffix. */
  predicate EndsWith(s: string, c: char) {
    |s| > 0 && s[|s| - 1] == c
  }

  /** The decimal value of a string of digits, most significant digit first. */
  function DigitsValue(s: string): nat
    requires AllDigits(s)
  {
    if |s| == 0 then 0
    else DigitsValue(s[..|s| - 1]) * 10 + (s[|s| - 1] as int - '0' as int)
  }

  /** The value of a three-digit string, digit by digit. */
  lemma ThreeDigitValue(s: string)
    requires |s| == 3 && AllDigits(s)
    ensures DigitsValue(s) == (s[0] as int - '0' as int) * 100
                              + (s[1] as int - '0' as int) * 10 + (s[2] as int - '0' as int)
  {
    assert s[..2][..1] == s[..1];
    assert s[..1][..0] == [];
    assert DigitsValue(s[..1]) == s[0] as int - '0' as int;
    assert DigitsValue(s[..2]) == DigitsValue(s[..1]) * 10 + (s[1] as int - '0' as int);
  }

  /** Decimal rendering without leading zeros, as `Long.toString` writes a
      natural number: the inverse of `DigitsValue`. */
  function NatToString(n: nat): (s: string)
    ensures IsDigitsOnly(s) && DigitsValue(s) == n
    ensures n < 10 <==> |s| == 1
  {
    var d := ['0' + ((n % 10) as char)];
    if n < 10 then d
    else
      var p := NatToString(n / 10);
      assert (p + d)[..|p + d| - 1] == p;
      p + d
  }

  /** The longest prefix of `s` made of digits. */
  function LeadingDigits(s: string): (r: string)
    ensures |r| <= |s| && r == s[..|r|] && AllDigits(r)
    ensures |r| < |s| ==> !IsDigit(s[|r|])
  {
    if |s| > 0 && IsDigit(s[0]) then [s[0]] + LeadingDigits(s[1..]) else []
  }

  /** The first match of `[\d]+` in `s`, as its start index and its text. */
  function FirstDigitRun(s: string): (r: Option<(nat, string)>)
    ensures r.None? <==> !ContainsDigit(s)
    ensures r.Some? ==>
      var (start, run) := r.value;
      && |run| > 0 && AllDigits(run)
      && start + |run| <= |s| && s[start..start + |run|] == run
      && (forall i :: 0 <= i < start ==> !IsDigit(s[i]))
      && (start + |run| < |s| ==> !IsDigit(s[start + |run|]))
  {
    if |s| == 0 then None
    else if IsDigit(s[0]) then
      assert ContainsDigit(s) by { assert IsDigit(s[0]); }
      Some((0, LeadingDigits(s)))
    else
      var t := s[1..];
      match FirstDigitRun(t)
      case None =>
        assert !ContainsDigit(s) by {
          forall i | 0 <= i < |s| ensures !IsDigit(s[i]) {
            if i > 0 { assert s[i] == t[i - 1]; }
          }
        }
        None
      case Some((start, run)) =>
        assert s[start + 1..start + 1 + |run|] == t[start..start + |run|];
        assert forall i :: 0 <= i < start + 1 ==> !IsDigit(s[i]) by {
          forall i | 0 <= i < start + 1 ensures !IsDigit(s[i]) {
            if i > 0 { assert s[i] == t[i - 1]; }
          }
        }
        assert ContainsDigit(s) by { assert IsDigit(t[start]) && s[start + 1] == t[start]; }
        Some((start + 1, run))
  }

  /** When the string begins with digits, the first run is exactly those
      leading digits. */
  lemma {:induction false} FirstDigitRunOfDigitPrefix(digits: string, rest: string)
    requires IsDigitsOnly(digits)
    requires rest == [] || !IsDigit(rest[0])
    ensures FirstDigitRun(digits + rest) == Some((0, digits))
  {
    var s := digits + rest;
    assert IsDigit(s[0]);
    var (start, run) := FirstDigitRun(s).value;
    assert start == 0;
    assert run == s[..|digits|] == digits;
  }

  /** After one non-digit, a string of digits is the first run, at index 1. */
  lemma {:induction false} FirstDigitRunAfterNonDigit(c: char, digits: string)
    requires !IsDigit(c) && IsDigitsOnly(digits)
    ensures FirstDigitRun([c] + digits) == Some((1, digits))
  {
    var s := [c] + digits;
    assert s[1..] == digits + [];
    FirstDigitRunOfDigitPrefix(digits, []);
  }
}
