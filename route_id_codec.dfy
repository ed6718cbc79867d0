/** The route-id encoding that both versions of `getRouteId` apply: the
    current version to the route's short name, the legacy version to the
    raw route id.  A code made only of digits is its own value; any other
    code that holds a digit and ends in `A` or `B` is 10 000 or 20 000 plus
    the value of its first run of digits; everything else has no id. */
module RouteIdCodec {
  import opened Wrappers
  import opened TextUtils

  const RidEwA: nat := 10_000
  const RidEwB: nat := 20_000

  /** True of the codes the encoding accepts. */
  predicate IsRouteCode(code: string) {
    || IsDigitsOnly(code)
    || (ContainsDigit(code) && (EndsWith(code, 'A') || EndsWith(code, 'B')))
  }

  function EncodeRouteId(code: string): (r: Option<nat>)
    ensures r.Some? <==> IsRouteCode(code)
    ensures IsDigitsOnly(code) ==> r == Some(DigitsValue(code))
    ensures !IsDigitsOnly(code) && r.Some? ==>
      var run := FirstDigitRun(code).value.1;
      r.value == (if EndsWith(code, 'A') then RidEwA else RidEwB) + DigitsValue(run)
  {
    if IsDigitsOnly(code) then Some(DigitsValue(code))
    else match FirstDigitRun(code)
      case None => None
      case Some((_, run)) =>
        if EndsWith(code, 'A') then Some(RidEwA + DigitsValue(run))
        else if EndsWith(code, 'B') then Some(RidEwB + DigitsValue(run))
        else None
  }

  /** A run of digits followed by `A` or `B` encodes to the run's value
      plus the letter's offset. */
  lemma {:induction false} EncodeLetteredCode(digits: string, letter: char)
    requires IsDigitsOnly(digits)
    requires letter == 'A' || letter == 'B'
    ensures EncodeRouteId(digits + [letter])
            == Some((if letter == 'A' then RidEwA else RidEwB) + DigitsValue(digits))
  {
    var code := digits + [letter];
    FirstDigitRunOfDigitPrefix(digits, [letter]);
    assert !IsDigit(code[|code| - 1]);
    assert ContainsDigit(code) by { assert IsDigit(code[0]); }
  }

  /** Round trip: a route number, written in decimal, encodes to itself,
      and followed by `A` or `B` to itself plus the letter's offset. */
  lemma EncodeLetteredRoute(n: nat, letter: char)
    requires letter == 'A' || letter == 'B'
    ensures EncodeRouteId(NatToString(n)) == Some(n)
    ensures EncodeRouteId(NatToString(n) + [letter])
            == Some((if letter == 'A' then RidEwA else RidEwB) + n)
  {
    EncodeLetteredCode(NatToString(n), letter);
  }

  /** An id produced from a lettered code is never below 10 000, so it can
      only collide with a numeric code of five or more digits. */
  lemma LetteredIdsAboveNumeric(code: string)
    requires !IsDigitsOnly(code) && EncodeRouteId(code).Some?
    ensures EncodeRouteId(code).value >= RidEwA
  {
  }

  /** A three-digit route number followed by a letter, such as "433A",
      encodes to the number plus the letter's offset. */
  lemma ThreeDigitLetteredCode(code: string)
    requires |code| == 4 && AllDigits(code[..3]) && (code[3] == 'A' || code[3] == 'B')
    ensures EncodeRouteId(code)
            == Some((if code[3] == 'A' then RidEwA else RidEwB)
                    + (code[0] as int - '0' as int) * 100
                    + (code[1] as int - '0' as int) * 10 + (code[2] as int - '0' as int))
  {
    assert code == code[..3] + [code[3]];
    EncodeLetteredCode(code[..3], code[3]);
    ThreeDigitValue(code[..3]);
  }

  /** The encoding is not injective on all strings: the numeric code of
      10 000 + n (such as "10433") and the lettered code of n followed by
      `A` (such as "433A") share an id. */
  lemma EncodingCollision(n: nat)
    ensures EncodeRouteId(NatToString(RidEwA + n)) == EncodeRouteId(NatToString(n) + ['A'])
  {
    EncodeLetteredRoute(n, 'A');
    EncodeLetteredRoute(RidEwA + n, 'A');
  }
}
