// Reference meaning of a 16-bit pin: the bit pattern it stores, read as an
// unsigned or as a two's-complement signed number, and what an adder and a
// subtracter of that width compute on patterns. The ALU oracles are checked
// against these definitions.
//
// A pattern is written as the integer in [0, 2^16) whose binary digits are the
// pin's bits, so that every statement below stays in integer arithmetic.

module TwosComplement {

  /** 2^16: the number of distinct 16-bit patterns. */
  const Modulus: int := 0x1_0000
  /** 2^15: the weight of the sign bit. */
  const Half: int := 0x8000

  /** A number `setPinSigned` can place on a 16-bit pin. */
  predicate IsSigned16(x: int) {
    -Half <= x < Half
  }

  /** A number `setPinUnsigned` can place on a 16-bit pin (also: a pattern). */
  predicate IsUnsigned16(x: int) {
    0 <= x < Modulus
  }

  /** The pattern that holds `x`: its low 16 bits. */
  function Pattern(x: int): (p: int)
    ensures IsUnsigned16(p)
    ensures (x - p) % Modulus == 0
  {
    x % Modulus
  }

  /** The most significant bit of a pattern. */
  predicate SignBit(p: int)
    requires IsUnsigned16(p)
  {
    p >= Half
  }

  /** A pattern read as a two's-complement number (`readPinSigned`). */
  function AsSigned(p: int): (s: int)
    requires IsUnsigned16(p)
    ensures IsSigned16(s)
    ensures Pattern(s) == p
    ensures s < 0 <==> SignBit(p)
  {
    if p < Half then p else p - Modulus
  }

  /** Two's-complement truncation: the signed reading of the low 16 bits of `x`. */
  function Truncate16(x: int): (r: int)
    ensures IsSigned16(r)
    ensures Pattern(r) == Pattern(x)
  {
    AsSigned(Pattern(x))
  }

  /** The unsigned and the signed reading of one pin agree on everything but the sign bit. */
  lemma SignedUnsignedRoundTrip(x: int)
    requires IsSigned16(x)
    ensures AsSigned(Pattern(x)) == x
    ensures Pattern(x) == if x < 0 then x + Modulus else x
  {
  }

  /** Truncation is the only signed number with the pattern of `x`. */
  lemma TruncateUnique(x: int, r: int)
    requires IsSigned16(r) && Pattern(r) == Pattern(x)
    ensures r == Truncate16(x)
  {
  }

  /** What a 16-bit adder puts on its output: the patterns' sum, carry-out dropped. */
  function AdderSum(pa: int, pb: int): (p: int)
    requires IsUnsigned16(pa) && IsUnsigned16(pb)
    ensures IsUnsigned16(p)
  {
    (pa + pb) % Modulus
  }

  /** A 16-bit subtracter: the patterns' difference, borrow dropped. */
  function SubtracterDifference(pa: int, pb: int): (p: int)
    requires IsUnsigned16(pa) && IsUnsigned16(pb)
    ensures IsUnsigned16(p)
  {
    (pa - pb) % Modulus
  }

  /** Signed overflow of an adder: equal operand signs, result of the other sign. */
  predicate AdderOverflow(pa: int, pb: int)
    requires IsUnsigned16(pa) && IsUnsigned16(pb)
  {
    SignBit(pa) == SignBit(pb) && SignBit(AdderSum(pa, pb)) != SignBit(pa)
  }

  /** Signed overflow of a subtracter: different operand signs, result of the subtrahend's sign. */
  predicate SubtracterOverflow(pa: int, pb: int)
    requires IsUnsigned16(pa) && IsUnsigned16(pb)
  {
    SignBit(pa) != SignBit(pb) && SignBit(SubtracterDifference(pa, pb)) != SignBit(pa)
  }

  /** The adder's pattern is the pattern of the exact sum, whatever the operands. */
  lemma AdderSumIsPattern(a: int, b: int)
    ensures AdderSum(Pattern(a), Pattern(b)) == Pattern(a + b)
  {
  }

  /** The subtracter's pattern is the pattern of the exact difference. */
  lemma SubtracterDifferenceIsPattern(a: int, b: int)
    ensures SubtracterDifference(Pattern(a), Pattern(b)) == Pattern(a - b)
  {
  }
}
