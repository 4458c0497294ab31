/** encoding/hex: hexadecimal numerals of byte strings. */
module Hex {
  import opened Options
  import opened Bits
  import opened Text

  // ---- decoding, as the library does it

  function HexValue(c: char): (r: Option<nat>)
    ensures r.Some? ==> r.value < 16
  {
    if '0' <= c <= '9' then Some((c as int) - ('0' as int))
    else if 'a' <= c <= 'f' then Some((c as int) - ('a' as int) + 10)
    else if 'A' <= c <= 'F' then Some((c as int) - ('A' as int) + 10)
    else None
  }

  predicate AllHex(s: string) {
    forall i :: 0 <= i < |s| ==> HexValue(s[i]).Some?
  }

  function HexBytes(s: string): (bytes: seq<Byte>)
    requires |s| % 2 == 0 && AllHex(s)
    ensures |s| == 2 * |bytes|
  {
    if s == [] then []
    else [ByteOf(16 * HexValue(s[0]).value + HexValue(s[1]).value)] + HexBytes(s[2..])
  }

  /** hex.DecodeString */
  function HexDecode(s: string): Option<seq<Byte>> {
    if |s| % 2 == 0 && AllHex(s) then Some(HexBytes(s)) else None
  }

  // ---- the numeral of a byte string

  const DIGITS := "0123456789abcdef"

  function Bit(b: bool): nat {
    if b then 1 else 0
  }

  /** The number of four bits, the lowest first. */
  function Nibble(bits: seq<bool>): (n: nat)
    requires |bits| == 4
    ensures n < 16
  {
    Bit(bits[0]) + 2 * Bit(bits[1]) + 4 * Bit(bits[2]) + 8 * Bit(bits[3])
  }

  /** Two digits for each byte, the high half first. */
  function Numeral(bytes: seq<Byte>): (s: string)
    ensures |s| == 2 * |bytes|
  {
    if bytes == [] then ""
    else [DIGITS[Nibble(bytes[0][4..])], DIGITS[Nibble(bytes[0][..4])]] + Numeral(bytes[1..])
  }

  /** The text has only hexadecimal digits, of either case. */
  predicate IsHex(s: string) {
    forall i :: 0 <= i < |s| ==> LowerChar(s[i]) in DIGITS
  }

  // ---- the two agree

  lemma DigitAt(n: nat)
    requires n < 16
    ensures DIGITS[n] == if n < 10 then '0' + n as char else 'a' + (n - 10) as char
  {
  }

  lemma DigitValue(n: nat)
    requires n < 16
    ensures HexValue(DIGITS[n]) == Some(n) && LowerChar(DIGITS[n]) == DIGITS[n]
  {
    DigitAt(n);
  }

  /** A character has a value exactly when its lower case is a digit, and then it is that digit. */
  lemma ValueDigit(c: char)
    ensures HexValue(c).Some? <==> LowerChar(c) in DIGITS
    ensures HexValue(c).Some? ==> DIGITS[HexValue(c).value] == LowerChar(c)
  {
    if HexValue(c).Some? {
      DigitAt(HexValue(c).value);
    } else if LowerChar(c) in DIGITS {
      var n :| 0 <= n < 16 && DIGITS[n] == LowerChar(c);
      DigitAt(n);
      assert false;
    }
  }

  /** The four bits of a number below 16, the lowest first. */
  function HalfByte(n: nat): (bits: seq<bool>)
    requires n < 16
    ensures |bits| == 4
  {
    [n % 2 == 1, n / 2 % 2 == 1, n / 4 % 2 == 1, n / 8 % 2 == 1]
  }

  lemma NibbleOf(n: nat)
    requires n < 16
    ensures Nibble(HalfByte(n)) == n
  {
  }

  lemma NibbleBits(bits: seq<bool>)
    requires |bits| == 4
    ensures HalfByte(Nibble(bits)) == bits
  {
  }

  lemma LowBits(high: nat, low: nat)
    requires high < 16 && low < 16
    ensures var n := 16 * high + low;
      n % 2 == low % 2 && n / 2 % 2 == low / 2 % 2 && n / 4 % 2 == low / 4 % 2 && n / 8 % 2 == low / 8 % 2
  {
    var n := 16 * high + low;
    assert n / 2 == 8 * high + low / 2;
    assert n / 4 == 4 * high + low / 4;
    assert n / 8 == 2 * high + low / 8;
  }

  lemma HighBits(high: nat, low: nat)
    requires high < 16 && low < 16
    ensures var n := 16 * high + low;
      n / 16 == high && n / 32 == high / 2 && n / 64 == high / 4 && n / 128 == high / 8
  {
  }

  lemma ByteHalves(high: nat, low: nat)
    requires high < 16 && low < 16
    ensures ByteOf(16 * high + low) == HalfByte(low) + HalfByte(high)
  {
    LowBits(high, low);
    HighBits(high, low);
  }

  lemma HalvesOf(high: nat, low: nat)
    requires high < 16 && low < 16
    ensures Nibble(ByteOf(16 * high + low)[4..]) == high && Nibble(ByteOf(16 * high + low)[..4]) == low
  {
    ByteHalves(high, low);
    NibbleOf(high);
    NibbleOf(low);
    hide *;
    assert (HalfByte(low) + HalfByte(high))[4..] == HalfByte(high);
    assert (HalfByte(low) + HalfByte(high))[..4] == HalfByte(low);
  }

  lemma OfHalves(b: Byte)
    ensures ByteOf(16 * Nibble(b[4..]) + Nibble(b[..4])) == b
  {
    ByteHalves(Nibble(b[4..]), Nibble(b[..4]));
    NibbleBits(b[4..]);
    NibbleBits(b[..4]);
    assert b == b[..4] + b[4..];
  }

  lemma HexExactly(s: string)
    ensures AllHex(s) <==> IsHex(s)
  {
    hide HexValue;
    forall i | 0 <= i < |s| ensures HexValue(s[i]).Some? <==> LowerChar(s[i]) in DIGITS {
      ValueDigit(s[i]);
    }
  }

  lemma OneByteBack(a: char, b: char)
    requires HexValue(a).Some? && HexValue(b).Some?
    ensures var byte := ByteOf(16 * HexValue(a).value + HexValue(b).value);
      DIGITS[Nibble(byte[4..])] == LowerChar(a) && DIGITS[Nibble(byte[..4])] == LowerChar(b)
  {
    ValueDigit(a);
    ValueDigit(b);
    hide HexValue, Nibble, ByteOf;
    HalvesOf(HexValue(a).value, HexValue(b).value);
  }

  lemma LowerPair(s: string)
    requires |s| >= 2
    ensures Lower(s) == [LowerChar(s[0]), LowerChar(s[1])] + Lower(s[2..])
  {
  }

  /** Decoding a text and writing the bytes gives the text back in lower case. */
  lemma {:induction false} DecodedReadsBack(s: string)
    requires HexDecode(s).Some?
    ensures Numeral(HexDecode(s).value) == Lower(s)
  {
    hide HexValue, Nibble, ByteOf, Lower, LowerChar;
    if s != "" {
      OneByteBack(s[0], s[1]);
      LowerPair(s);
      assert HexBytes(s)[1..] == HexBytes(s[2..]);
      DecodedReadsBack(s[2..]);
    } else {
      assert Lower("") == "" by { LowerEmpty(); }
    }
  }

  lemma LowerEmpty()
    ensures Lower("") == ""
  {
  }

  /** The numeral of every byte string is decoded to those bytes. */
  lemma {:induction false} NumeralDecodes(bytes: seq<Byte>)
    ensures HexDecode(Numeral(bytes)) == Some(bytes)
  {
    hide HexValue, Nibble, ByteOf;
    if bytes != [] {
      var b, s := bytes[0], Numeral(bytes);
      NumeralDecodes(bytes[1..]);
      DigitValue(Nibble(b[4..]));
      DigitValue(Nibble(b[..4]));
      OfHalves(b);
      assert s[2..] == Numeral(bytes[1..]);
      assert forall i :: 2 <= i < |s| ==> s[i] == s[2..][i - 2];
      assert AllHex(s);
      assert HexBytes(s) == [b] + bytes[1..] == bytes;
    }
  }
}
