/** Decimal rendering of natural numbers, as `strftime` writes the fields of
    a date or a time: digits, left-padded with zeros to a fixed width. The
    rendering is paired with `Value`, which reads a digit string back. */
module Decimal {

  predicate IsDigit(c: char) {
    '0' <= c <= '9'
  }

  predicate AllDigits(s: string) {
    forall i | 0 <= i < |s| :: IsDigit(s[i])
  }

  function Pow10(k: nat): (r: nat)
    ensures r >= 1
  {
    if k == 0 then 1 else 10 * Pow10(k - 1)
  }

  function DigitChar(d: nat): (c: char)
    requires d < 10
    ensures IsDigit(c) && c as int - '0' as int == d
  {
    ('0' as int + d) as char
  }

  /** The number a digit string denotes; leading zeros are allowed. */
  function Value(s: string): nat
    requires AllDigits(s)
  {
    if |s| == 0 then 0
    else 10 * Value(s[..|s| - 1]) + (s[|s| - 1] as int - '0' as int)
  }

  /** The shortest decimal rendering of `n` (no leading zeros except for 0 itself). */
  function Digits(n: nat): (s: string)
    ensures 1 <= |s|
    ensures AllDigits(s)
    ensures Value(s) == n
    ensures 1 < |s| ==> s[0] != '0'
  {
    if n < 10 then [DigitChar(n)]
    else
      var prefix := Digits(n / 10);
      var s := prefix + [DigitChar(n % 10)];
      assert s[..|s| - 1] == prefix;
      s
  }

  function Zeros(k: nat): (s: string)
    ensures |s| == k
    ensures forall i | 0 <= i < k :: s[i] == '0'
  {
    seq(k, _ => '0')
  }

  /** `n` in decimal, left-padded with zeros to at least `width` characters,
      as `%04d`, `%Y`, `%m`, `%d`, `%H` and `%M` print it. */
  function Padded(n: nat, width: nat): (s: string)
    ensures AllDigits(s)
    ensures Value(s) == n
    ensures width <= |s|
    ensures 0 < width && n < Pow10(width) ==> |s| == width
  {
    var d := Digits(n);
    if width <= |d| then
      (if 0 < width && n < Pow10(width) then DigitsWidth(n, width); d else d)
    else
      ZeroPrefixValue(Zeros(width - |d|), d);
      Zeros(width - |d|) + d
  }

  /** A number below `10^w` needs at most `w` digits. */
  lemma {:induction false} DigitsWidth(n: nat, w: nat)
    requires 0 < w && n < Pow10(w)
    ensures |Digits(n)| <= w
  {
    if n >= 10 {
      assert Pow10(1) == 10;
      assert n / 10 < Pow10(w - 1);
      DigitsWidth(n / 10, w - 1);
    }
  }

  /** Leading zeros do not change the value of a digit string. */
  lemma {:induction false} ZeroPrefixValue(z: string, s: string)
    requires forall i | 0 <= i < |z| :: z[i] == '0'
    requires AllDigits(s)
    ensures AllDigits(z + s)
    ensures Value(z + s) == Value(s)
    decreases |z| + |s|
  {
    var zs := z + s;
    assert AllDigits(zs) by {
      forall i | 0 <= i < |zs| ensures IsDigit(zs[i]) {
        if i < |z| { assert zs[i] == z[i]; } else { assert zs[i] == s[i - |z|]; }
      }
    }
    if |s| == 0 {
      assert zs == z;
      if |z| > 0 {
        assert zs[..|zs| - 1] == z[..|z| - 1] + [];
        ZeroPrefixValue(z[..|z| - 1], []);
      }
    } else {
      assert zs[..|zs| - 1] == z + s[..|s| - 1];
      ZeroPrefixValue(z, s[..|s| - 1]);
    }
  }
}
