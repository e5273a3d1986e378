/** Base-16 parsing of an address as the source requests it from the Go library:
    strconv.ParseUint(text, 16, 64). At an explicit base 16 no "0x" prefix, sign or
    underscore is accepted; the digits are case-insensitive; an empty text, any other
    character, or a value of 2^64 or more is an error. */
module HexParse {
  import opened Wrappers
  import opened Bits

  predicate IsHexDigit(c: char) {
    '0' <= c <= '9' || 'a' <= c <= 'f' || 'A' <= c <= 'F'
  }

  predicate AllHex(s: string) {
    forall i :: 0 <= i < |s| ==> IsHexDigit(s[i])
  }

  function DigitValue(c: char): (d: nat)
    requires IsHexDigit(c)
    ensures d < 16
  {
    if c <= '9' then c as int - '0' as int
    else if c <= 'F' then c as int - 'A' as int + 10
    else c as int - 'a' as int + 10
  }

  /** The number a string of hex digits denotes, most significant digit first. */
  function HexValue(s: string): nat
    requires AllHex(s)
  {
    if s == [] then 0 else HexValue(s[..|s| - 1]) * 16 + DigitValue(s[|s| - 1])
  }

  /** The value of the text as a uint64, or None where the library reports an error. */
  function ParseUint64Hex(s: string): (r: Option<nat>)
    ensures r.Some? ==> r.value < Uint64Limit
  {
    if s != [] && AllHex(s) && HexValue(s) < Uint64Limit then Some(HexValue(s)) else None
  }

  /** The lower-case digit for a value below 16. */
  function HexChar(d: nat): (c: char)
    requires d < 16
    ensures IsHexDigit(c) && DigitValue(c) == d
  {
    if d < 10 then ('0' as int + d) as char else ('a' as int + d - 10) as char
  }

  /** The shortest lower-case hex text of `n`. */
  function FormatHex(n: nat): (s: string)
    ensures s != [] && AllHex(s)
  {
    if n < 16 then [HexChar(n)] else FormatHex(n / 16) + [HexChar(n % 16)]
  }

  lemma {:induction false} HexValueOfFormat(n: nat)
    ensures HexValue(FormatHex(n)) == n
    decreases n
  {
    if n >= 16 {
      var s := FormatHex(n);
      assert s[..|s| - 1] == FormatHex(n / 16);
      HexValueOfFormat(n / 16);
    }
  }

  /** Every uint64 printed in hex parses back to itself. */
  lemma FormatThenParse(n: nat)
    requires n < Uint64Limit
    ensures ParseUint64Hex(FormatHex(n)) == Some(n)
  {
    HexValueOfFormat(n);
  }

  /** Base 16 given explicitly: a "0x" prefix is a syntax error. */
  lemma PrefixRejected(s: string)
    ensures ParseUint64Hex("0x" + s) == None
  {
    assert !IsHexDigit(("0x" + s)[1]);
  }

  /** A hex text of more than sixteen significant digits is out of range. */
  lemma {:induction false} HexValueLowerBound(s: string)
    requires AllHex(s) && s != [] && DigitValue(s[0]) > 0
    ensures HexValue(s) >= Pow2(4 * (|s| - 1))
    decreases |s|
  {
    if |s| > 1 {
      var p := s[..|s| - 1];
      assert p[0] == s[0];
      HexValueLowerBound(p);
      assert Pow2(4 * (|s| - 1)) == 16 * Pow2(4 * (|p| - 1)) by {
        Pow2Add(4, 4 * (|p| - 1));
        assert 4 * (|s| - 1) == 4 + 4 * (|p| - 1);
      }
    }
  }

  /** Seventeen or more digits after a non-zero leading digit overflow 64 bits. */
  lemma TooManyDigitsRejected(s: string)
    requires AllHex(s) && |s| > 16 && DigitValue(s[0]) > 0
    ensures ParseUint64Hex(s) == None
  {
    HexValueLowerBound(s);
    Pow2Add(64, 4 * (|s| - 1) - 64);
    Pow2Value64();
  }
}
