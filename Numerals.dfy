/** Number formatting and parsing: Python's `str(n)` and `int(text, base)`,
    and C's `printf("%016" PRIx64, v)`. */
module Numerals {

  /** The digit character for `d`: "0".."9", then lower-case "a".."f". */
  function DigitChar(d: nat): (c: char)
    requires d < 16
    ensures DigitValue(c) == d
  {
    if d < 10 then ('0' as int + d) as char else ('a' as int + d - 10) as char
  }

  /** Value of a digit character as `int()` reads it (either case), or 16 for
      a character that is no digit in any base up to 16. */
  function DigitValue(c: char): nat {
    if '0' <= c <= '9' then c as int - '0' as int
    else if 'a' <= c <= 'f' then c as int - 'a' as int + 10
    else if 'A' <= c <= 'F' then c as int - 'A' as int + 10
    else 16
  }

  /** Every character of `s` is a digit of `base`. */
  predicate AllDigits(s: string, base: nat) {
    forall i :: 0 <= i < |s| ==> DigitValue(s[i]) < base
  }

  /** The value of the digit string `s` in `base`, most significant digit first. */
  function ParseDigits(s: string, base: nat): nat {
    if s == [] then 0 else ParseDigits(s[..|s| - 1], base) * base + DigitValue(s[|s| - 1])
  }

  function Pow16(n: nat): (p: nat)
    ensures p >= 1
  {
    if n == 0 then 1 else 16 * Pow16(n - 1)
  }

  /** The `width` least significant hexadecimal digits of `v`, lower case and
      zero-padded: `%0<width>x`. */
  function FixedHex(v: nat, width: nat): (s: string)
    ensures |s| == width
    ensures AllDigits(s, 16)
    ensures forall i :: 0 <= i < |s| ==> '0' <= s[i] <= '9' || 'a' <= s[i] <= 'f'
  {
    if width == 0 then [] else FixedHex(v / 16, width - 1) + [DigitChar(v % 16)]
  }

  /** Reading the padded digits back gives the value, whenever it fits the width. */
  lemma {:induction false} FixedHexRoundTrip(v: nat, width: nat)
    requires v < Pow16(width)
    ensures ParseDigits(FixedHex(v, width), 16) == v
  {
    if width > 0 {
      var s := FixedHex(v, width);
      assert s[..|s| - 1] == FixedHex(v / 16, width - 1);
      FixedHexRoundTrip(v / 16, width - 1);
    }
  }

  /** `str(n)` for a non-negative integer: its decimal digits without padding. */
  function Decimal(n: nat): (s: string)
    ensures s != [] && AllDigits(s, 10)
    ensures |s| > 1 ==> s[0] != '0'
  {
    if n < 10 then [DigitChar(n)] else Decimal(n / 10) + [DigitChar(n % 10)]
  }

  /** `int(str(n)) == n`. */
  lemma {:induction false} DecimalRoundTrip(n: nat)
    ensures ParseDigits(Decimal(n), 10) == n
  {
    var s := Decimal(n);
    if n < 10 {
      assert s[..0] == [];
    } else {
      assert s[..|s| - 1] == Decimal(n / 10);
      DecimalRoundTrip(n / 10);
    }
  }
}
