/**
 Passkey generation, written identically in telegram_bot.js and utils.js:
 `length` times, append `Math.floor(Math.random() * 10)` to a string.
 The random draws are supplied by the caller, one decimal digit per position.
 */
module Passkey {

  /** One draw of `Math.floor(Math.random() * 10)`. */
  type Digit = d: int | 0 <= d < 10

  predicate IsDigitChar(c: char) {
    '0' <= c <= '9'
  }

  /** The decimal rendering of a digit when it is appended to a string. */
  function DigitChar(d: Digit): (c: char)
    ensures IsDigitChar(c)
    ensures c as int - '0' as int == d
  {
    ('0' as int + d) as char
  }

  /** A passkey: exactly `length` decimal digits. */
  predicate IsPasskey(key: string, length: nat) {
    |key| == length && forall i :: 0 <= i < |key| ==> IsDigitChar(key[i])
  }

  /** The key the draws spell out, digit by digit. */
  function DigitString(draws: seq<Digit>): (key: string)
    ensures IsPasskey(key, |draws|)
    ensures forall i :: 0 <= i < |draws| ==> key[i] == DigitChar(draws[i])
  {
    if draws == [] then "" else DigitString(draws[..|draws| - 1]) + [DigitChar(draws[|draws| - 1])]
  }

  /** Reading the digits back off a key recovers the draws: distinct draws give distinct keys. */
  lemma DigitStringInjective(a: seq<Digit>, b: seq<Digit>)
    requires DigitString(a) == DigitString(b)
    ensures a == b
  {
    var ka, kb := DigitString(a), DigitString(b);
    assert |a| == |ka| == |kb| == |b|;
    forall i | 0 <= i < |a| ensures a[i] == b[i] {
      assert DigitChar(a[i]) == ka[i] == kb[i] == DigitChar(b[i]);
    }
  }

  method GeneratePasskey(length: nat, draws: seq<Digit>) returns (key: string)
    requires |draws| == length
    ensures IsPasskey(key, length)
    ensures key == DigitString(draws)
  {
    key := "";
    for i := 0 to length
      invariant key == DigitString(draws[..i])
    {
      assert draws[..i + 1][..i] == draws[..i];
      key := key + [DigitChar(draws[i])];
    }
    assert draws[..length] == draws;
  }
}
