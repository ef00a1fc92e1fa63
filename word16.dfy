/** 16-bit register words, their two bytes, and the integers they stand for.

    A register of the sensor is a 16-bit pattern (`bv16`). Python hands the
    driver such a register either as an unsigned integer (`readU16BE`) or as a
    two's-complement signed one (`readS16BE`). The integer a pattern stands
    for is spelled out here digit by digit, two bits to a digit, so that what
    the driver does to the integers can be related to what happens to the bits.
 */
module Word16 {

  type Word = bv16
  type Byte = bv8

  const SIGN_BIT: Word := 0x8000

  /** The low byte of a word (bits 0-7). */
  function LowByte(w: Word): (lo: Byte)
  {
    (w & 0xFF) as Byte
  }

  /** The high byte of a word (bits 8-15). */
  function HighByte(w: Word): (hi: Byte)
  {
    (w >> 8) as Byte
  }

  /** The word whose high byte is `hi` and whose low byte is `lo`. */
  function FromBytes(hi: Byte, lo: Byte): (w: Word)
    ensures HighByte(w) == hi && LowByte(w) == lo
  {
    ((hi as Word) << 8) | (lo as Word)
  }

  /** Splitting a word into its bytes and joining them again gives the word back. */
  lemma BytesRoundTrip(w: Word)
    ensures FromBytes(HighByte(w), LowByte(w)) == w
  {
  }

  /** The value of the two low bits of a word. */
  function Digit(w: Word): (d: nat)
    ensures d < 4
  {
    if w & 3 == 0 then 0 else if w & 3 == 1 then 1 else if w & 3 == 2 then 2 else 3
  }

  /** 4 to the power `k`: the weight of digit `k`. */
  function Pow4(k: nat): (p: nat)
    ensures p >= 1
  {
    if k == 0 then 1 else 4 * Pow4(k - 1)
  }

  /** The integer the lowest `k` two-bit digits of `w` stand for, lowest digit
      first. */
  function DigitSum(w: Word, k: nat): (n: nat)
    requires k <= 8
    ensures n < Pow4(k)
  {
    if k == 0 then 0 else Digit(w) + 4 * DigitSum(w >> 2, k - 1)
  }

  /** The unsigned integer a word stands for: all eight of its digits. */
  function Unsigned(w: Word): (n: nat)
    ensures n < 0x10000
  {
    DigitSum(w, 8)
  }

  /** Four digits of a digit sum, taken off its low end. */
  lemma DigitSumLowFour(v: Word, k: nat)
    requires 4 <= k <= 8
    ensures DigitSum(v, k) ==
      Digit(v) + 4 * Digit(v >> 2) + 16 * Digit(v >> 4) + 64 * Digit(v >> 6)
      + 256 * DigitSum(v >> 8, k - 4)
  {
    assert (v >> 2) >> 2 == v >> 4;
    assert (v >> 4) >> 2 == v >> 6;
    assert (v >> 6) >> 2 == v >> 8;
    assert DigitSum(v >> 6, k - 3) == Digit(v >> 6) + 4 * DigitSum(v >> 8, k - 4);
    assert DigitSum(v >> 4, k - 2) == Digit(v >> 4) + 4 * DigitSum(v >> 6, k - 3);
    assert DigitSum(v >> 2, k - 1) == Digit(v >> 2) + 4 * DigitSum(v >> 4, k - 2);
  }

  /** The unsigned value written out digit by digit. */
  lemma UnsignedDigits(w: Word)
    ensures Unsigned(w) ==
      Digit(w) + 4 * Digit(w >> 2) + 16 * Digit(w >> 4) + 64 * Digit(w >> 6)
      + 256 * Digit(w >> 8) + 1024 * Digit(w >> 10) + 4096 * Digit(w >> 12)
      + 16384 * Digit(w >> 14)
  {
    DigitSumLowFour(w, 8);
    DigitSumLowFour(w >> 8, 4);
    assert (w >> 8) >> 2 == w >> 10;
    assert (w >> 8) >> 4 == w >> 12;
    assert (w >> 8) >> 6 == w >> 14;
  }

  /** The sign bit is the high bit of the top digit. */
  lemma SignBitIsTopDigit(w: Word)
    ensures (w & SIGN_BIT != 0) == (Digit(w >> 14) >= 2)
  {
    assert (w & SIGN_BIT != 0) == ((w >> 14) & 2 != 0);
  }

  /** The two's-complement integer a word stands for: bit 15 weighs -0x8000. */
  function Signed(w: Word): (i: int)
    ensures -0x8000 <= i < 0x8000
    ensures i < 0 <==> w & SIGN_BIT != 0
  {
    SignBitIsTopDigit(w);
    UnsignedDigits(w);
    if w & SIGN_BIT != 0 then Unsigned(w) - 0x10000 else Unsigned(w)
  }

  /** Taking a signed reading back to sixteen bits (as the raw-voltage log line
      does) gives the unsigned value of the same register. */
  lemma SignedWrapsToUnsigned(w: Word)
    ensures Signed(w) % 0x10000 == Unsigned(w)
    ensures Signed(w) == Unsigned(w) - (if Unsigned(w) >= 0x8000 then 0x10000 else 0)
  {
    SignBitIsTopDigit(w);
  }

  /** Arithmetic (sign-preserving) shift right by two of a 16-bit pattern: bits
      2-15 move down to 0-13 and the sign bit is copied into bits 14 and 15. */
  function ShiftRightArith2(w: Word): (shifted: Word)
    ensures (shifted & SIGN_BIT != 0) == (w & SIGN_BIT != 0)
  {
    (w >> 2) | (if w & SIGN_BIT != 0 then 0xC000 else 0)
  }

  /** The bit-level effect of the shift, one digit at a time. */
  lemma ShiftRightArith2LowDigits(w: Word)
    ensures ShiftRightArith2(w) & 3 == (w >> 2) & 3
    ensures (ShiftRightArith2(w) >> 2) & 3 == (w >> 4) & 3
    ensures (ShiftRightArith2(w) >> 4) & 3 == (w >> 6) & 3
    ensures (ShiftRightArith2(w) >> 6) & 3 == (w >> 8) & 3
  {
  }

  lemma ShiftRightArith2HighDigits(w: Word)
    ensures (ShiftRightArith2(w) >> 8) & 3 == (w >> 10) & 3
    ensures (ShiftRightArith2(w) >> 10) & 3 == (w >> 12) & 3
    ensures (ShiftRightArith2(w) >> 12) & 3 == (w >> 14) & 3
    ensures (ShiftRightArith2(w) >> 14) & 3 == if w & SIGN_BIT != 0 then 3 else 0
  {
  }

  lemma DigitOfLowBits(x: Word, y: Word)
    requires x & 3 == y & 3
    ensures Digit(x) == Digit(y)
  {
  }

  /** Digit `k` of the shifted word is digit `k + 1` of the original; the top
      digit is 3 for a negative word and 0 otherwise. */
  lemma ShiftRightArith2Digits(w: Word)
    ensures Digit(ShiftRightArith2(w)) == Digit(w >> 2)
    ensures Digit(ShiftRightArith2(w) >> 2) == Digit(w >> 4)
    ensures Digit(ShiftRightArith2(w) >> 4) == Digit(w >> 6)
    ensures Digit(ShiftRightArith2(w) >> 6) == Digit(w >> 8)
    ensures Digit(ShiftRightArith2(w) >> 8) == Digit(w >> 10)
    ensures Digit(ShiftRightArith2(w) >> 10) == Digit(w >> 12)
    ensures Digit(ShiftRightArith2(w) >> 12) == Digit(w >> 14)
    ensures Digit(ShiftRightArith2(w) >> 14) == if w & SIGN_BIT != 0 then 3 else 0
  {
    ShiftRightArith2LowDigits(w);
    ShiftRightArith2HighDigits(w);
    DigitOfLowBits(ShiftRightArith2(w), w >> 2);
    DigitOfLowBits(ShiftRightArith2(w) >> 2, w >> 4);
    DigitOfLowBits(ShiftRightArith2(w) >> 4, w >> 6);
    DigitOfLowBits(ShiftRightArith2(w) >> 6, w >> 8);
    DigitOfLowBits(ShiftRightArith2(w) >> 8, w >> 10);
    DigitOfLowBits(ShiftRightArith2(w) >> 10, w >> 12);
    DigitOfLowBits(ShiftRightArith2(w) >> 12, w >> 14);
  }

  /** Shifting the pattern right arithmetically by two is floor division of its
      signed value by four: the two low bits are dropped and the sign is kept. */
  lemma ShiftRightArith2IsFloorDiv(w: Word)
    ensures Signed(ShiftRightArith2(w)) == Signed(w) / 4
  {
    ShiftRightArith2Digits(w);
    SignBitIsTopDigit(w);
    UnsignedDigits(w);
    UnsignedDigits(ShiftRightArith2(w));
  }
}
