// The operands the test suite feeds the ALU and the fixed expectations of its
// single-case tests. The suite's nested driver loops run every ordered pair of
// a sample array through one oracle; here that becomes a statement over all
// pairs drawn from the array.

module AluSamples {
  import opened TwosComplement
  import opened AluOracle

  /** Operands of the exhaustive ADD/SUB driver. */
  const TestIntegers: seq<int> :=
    [-32768, -32767, 0, 1, 2, 13, 127, 128, 129, 0x5555, 32766, 32767, -1, -2, -3]

  /** Operands of the exhaustive SLT driver. */
  const SignedComparisonValues: seq<int> := [-32768, -32767, -1, 0, 1, 32766, 32767]

  /** Operands of the exhaustive SLTU driver. */
  const UnsignedComparisonValues: seq<int> := [0, 1, 2, 65534, 65535]

  /** Every sample operand can be placed on a pin the way its driver places it. */
  lemma SampleOperandsInRange()
    ensures forall x :: x in TestIntegers ==> IsSigned16(x)
    ensures forall x :: x in SignedComparisonValues ==> IsSigned16(x)
    ensures forall x :: x in UnsignedComparisonValues ==> IsUnsigned16(x)
  {
  }

  /**
   * For every pair the ADD/SUB driver runs, the exact sum and difference lie
   * within the reach of one correction of 2^16; and the pairs reach both
   * directions of overflow for both operations.
   */
  lemma AddSubSamplesWrapOnce()
    ensures forall a, b :: a in TestIntegers && b in TestIntegers ==>
              -(Modulus + Half) <= a + b < Modulus + Half &&
              -(Modulus + Half) <= a - b < Modulus + Half
    ensures exists a, b :: a in TestIntegers && b in TestIntegers && a + b >= Half
    ensures exists a, b :: a in TestIntegers && b in TestIntegers && a + b < -Half
    ensures exists a, b :: a in TestIntegers && b in TestIntegers && a - b >= Half
    ensures exists a, b :: a in TestIntegers && b in TestIntegers && a - b < -Half
  {
    SampleOperandsInRange();
    assert 32767 in TestIntegers && 1 in TestIntegers && 32767 + 1 >= Half;
    assert -32768 in TestIntegers && -1 in TestIntegers && -32768 + -1 < -Half;
    assert 32767 - -1 >= Half;
    assert -32768 - 1 < -Half;
  }

  /**
   * The SLT and SLTU drivers put pairs on the pins whose signed and unsigned
   * orders disagree, so the two comparisons are told apart.
   */
  lemma ComparisonSamplesSeparateSltFromSltu()
    ensures exists a, b :: a in SignedComparisonValues && b in SignedComparisonValues &&
              LessThan(a, b) != LessThan(Pattern(a), Pattern(b))
    ensures exists a, b :: a in UnsignedComparisonValues && b in UnsignedComparisonValues &&
              LessThan(a, b) != LessThan(AsSigned(a), AsSigned(b))
  {
    assert -1 in SignedComparisonValues && 0 in SignedComparisonValues;
    assert LessThan(-1, 0) == 1 && LessThan(Pattern(-1), Pattern(0)) == 0;
    assert 0 in UnsignedComparisonValues && 65535 in UnsignedComparisonValues;
    assert LessThan(0, 65535) == 1 && LessThan(AsSigned(0), AsSigned(65535)) == 0;
  }

  /** The fixed expectations of the single-case tests. */
  lemma SingleCaseExpectations()
    ensures AdduExpected(53400, 53500) == 41364
    ensures SubuExpected(53400, 53500) == 65436
    ensures SubuExpected(53500, 53400) == 100
    ensures LessThan(5, 6) == 1
    ensures LessThan(32767, -1) == 0
    ensures AndExpected(0xFF00, 0x0F0F) == 0x0F00
    ensures NotExpected(0x1, 0x0F0F) == 0xFFFE
  {
  }
}
