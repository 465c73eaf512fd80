/**
  Upper-case hexadecimal rendering of a number, as the `%X` verb of Go's formatter
  prints an unsigned integer: most significant digit first, no leading zeros, and
  "0" for zero.
*/
module HexFormat {

  function Digit(d: nat): (c: char)
    requires d < 16
  {
    if d < 10 then ('0' as int + d) as char else ('A' as int + d - 10) as char
  }

  predicate IsHexDigit(c: char) {
    '0' <= c <= '9' || 'A' <= c <= 'F'
  }

  function DigitValue(c: char): (d: nat)
    requires IsHexDigit(c)
    ensures d < 16
  {
    if '0' <= c <= '9' then c as int - '0' as int else c as int - 'A' as int + 10
  }

  /** `%X` of `n`. */
  function UpperHex(n: nat): (s: string)
    ensures |s| >= 1
    ensures forall i :: 0 <= i < |s| ==> IsHexDigit(s[i])
    ensures s[0] == '0' <==> n == 0
    ensures |s| == 1 <==> n < 16
    decreases n
  {
    if n < 16 then [Digit(n)] else UpperHex(n / 16) + [Digit(n % 16)]
  }

  /** Reads a string of upper-case hexadecimal digits back as a number. */
  function ParseHex(s: string): nat
    requires forall i :: 0 <= i < |s| ==> IsHexDigit(s[i])
  {
    if |s| == 0 then 0 else ParseHex(s[..|s| - 1]) * 16 + DigitValue(s[|s| - 1])
  }

  /** `%X` loses nothing: the printed digits read back as the number printed. */
  lemma {:induction false} ParseUpperHex(n: nat)
    ensures ParseHex(UpperHex(n)) == n
    decreases n
  {
    if n >= 16 {
      var s := UpperHex(n);
      assert s[..|s| - 1] == UpperHex(n / 16);
      ParseUpperHex(n / 16);
    }
  }

  /** A byte prints as at most two digits. */
  lemma UpperHexOfByte(n: nat)
    requires n < 0x100
    ensures 1 <= |UpperHex(n)| <= 2
  {
  }
}
