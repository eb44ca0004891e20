# 16-bit ALU test oracle

This project models the reference side of the sample test suite for a 16-bit ALU
(`Sample16BitALUTest.java`). Each test puts operands on the pins InputA and InputB,
writes an opcode to the Op pin, runs the circuit in the DLUnit simulator, and
compares the Output and Overflow pins against values the test computes itself.
The model covers those computed values:

- the opcode table (`OpCodes`): `AluOracle.Code`, with its inverse `AluOracle.Decode`;
- ADDU and SUBU: the exact result reduced with Java's `%`, or with 2^16 added to a
  negative difference; the overflow flag is false by definition;
- ADD and SUB: overflow when the exact result leaves [-2^15, 2^15), and then one
  correction of 2^16 towards zero (`AluOracle.SignedExpected`, shared by
  `AddExpected` and `SubExpected`);
- SLT and SLTU: 1 when InputA < InputB, else 0 (`AluOracle.LessThan`);
- AND and NOT: the lambdas `a & b` and `(~a) & 0xFFFF` on Java `long`s, written on
  64-bit bit-vectors (`AluOracle.AndExpected`, `AluOracle.NotExpected`);
- which expectation goes with which opcode (`AluOracle.ExpectedFor`);
- the suite's sample operands and single-case expectations (module `AluSamples`).

The module `TwosComplement` gives the meaning these values are checked against. A
pin stores a 16-bit pattern. `readPinUnsigned` reads it as a number in [0, 2^16).
`readPinSigned` reads it in two's complement. A 16-bit adder or subtracter drops
the carry and sets overflow by the sign-bit rule. A pattern is written as an
integer in [0, 2^16), so all arithmetic reasoning stays in integers. The logic
operations stay in bit-vectors: a Java `long` is a `bv64` and the pin is a `bv16`.
`SignedUnsignedRoundTrip` shows that the two readings of a pin are the same
pattern. `TruncateUnique` shows that `Truncate16(x)` is the only signed 16-bit
number with the pattern of `x`, so it is *the* two's-complement truncation.
`AdderSumIsPattern` and `SubtracterDifferenceIsPattern` show that the adder and
the subtracter output the pattern of the exact sum and difference.

The main result is in `AddExpected` and `SubExpected`. For every pair of signed
16-bit operands, the single correction gives exactly the adder's (subtracter's)
output read as signed, which is the two's-complement truncation of the exact
result. The overflow flag also matches the sign-bit rule exactly.
`SignedExpected` states how far the single correction reaches: its result is
in the signed range exactly when the exact result is in [-3·2^15, 3·2^15).

The suite gives no oracle for OR, XOR or LUI, and computes SUBU with two
different expressions (lines 59 and 71); the model follows the code.
`SubuExpected` uses the 2^16-plus form where its test uses it (InputA < InputB) and the `%`
form otherwise. `SubuFormsComplement` shows that neither form alone gives an
unsigned reading on every pair.

## Model

| member | source | states |
|---|---|---|
| `AluOracle.Code` | Sample16BitALUTest.java:25-37 | every opcode value fits the 4-bit Op pin (0..15) |
| `AluOracle.Decode` | Sample16BitALUTest.java:25-37 | a decoded value is the code of the operation returned; a value no operation has decodes to nothing |
| `AluOracle.CodeRoundTrip` | Sample16BitALUTest.java:25-37 | decoding an operation's code gives that operation back |
| `AluOracle.CodesDistinct` | Sample16BitALUTest.java:25-37 | the opcode constants are pairwise distinct |
| `AluOracle.JavaRemModulus` | Sample16BitALUTest.java:47 | Java's `% 65536` keeps the 16-bit pattern of the dividend, has magnitude below 2^16 and takes the dividend's sign |
| `AluOracle.AdduExpected` | Sample16BitALUTest.java:47 | for a non-negative sum the expected Output is an unsigned 16-bit value with the sum's pattern |
| `AluOracle.AdduIsAdderSum` | Sample16BitALUTest.java:47-50 | for all unsigned operands ADDU's expected Output is what a 16-bit adder outputs: the sum, less 2^16 when it carries out |
| `AluOracle.SubuExpected` | Sample16BitALUTest.java:59-71 | for unsigned operands the expected Output is an unsigned 16-bit value with the pattern of `a - b` |
| `AluOracle.SubuIsSubtracterDifference` | Sample16BitALUTest.java:59-71 | for all unsigned operands SUBU's expected Output is what a 16-bit subtracter outputs: `a - b`, plus 2^16 when it borrows |
| `AluOracle.SubuFormsComplement` | Sample16BitALUTest.java:59-71 | the `%` form leaves a negative difference negative, and the 2^16-plus form leaves the range for a non-negative one, so each is right only where its test uses it |
| `AluOracle.SignedExpected` | Sample16BitALUTest.java:93-101 | overflow exactly when the exact result leaves [-2^15, 2^15); no overflow leaves it unchanged; the pattern never changes; the result is signed 16-bit exactly when the exact result is in [-3·2^15, 3·2^15), and then it is the two's-complement truncation (the same block is at lines 114-122) |
| `AluOracle.AddExpected` | Sample16BitALUTest.java:88-107 | ADD overflows exactly when `a + b` leaves the signed range, is `a + b` when it does not, and for signed operands equals the adder's output read as signed, with overflow equal to the sign-bit rule |
| `AluOracle.SubExpected` | Sample16BitALUTest.java:109-128 | the same for SUB and `a - b`, against a 16-bit subtracter |
| `AluOracle.AdderMatchesSignedSum` | Sample16BitALUTest.java:93-94 | for signed operands the adder's signed output is the truncated sum, and the sign-bit overflow rule holds exactly when the sum leaves [-2^15, 2^15) |
| `AluOracle.SubtracterMatchesSignedDifference` | Sample16BitALUTest.java:114-115 | the same for the subtracter and the difference |
| `AluOracle.LessThan` | Sample16BitALUTest.java:166 | the comparison result is 0 or 1 |
| `AluOracle.SltIsSignXorOverflow` | Sample16BitALUTest.java:165-166 | for signed operands SLT is 1 exactly when the sign of the wrapped difference differs from SUB's overflow flag |
| `AluOracle.SltuOfSignedPins` | Sample16BitALUTest.java:190-191 | on the same two pins SLTU (unsigned readings) equals SLT (signed readings) when the sign bits agree and is its opposite when they differ |
| `AluOracle.AndExpected` | Sample16BitALUTest.java:226 | every bit set in the result is set in both operands, and the result is at most each operand |
| `AluOracle.AndOnPins` | Sample16BitALUTest.java:225-226 | on 16-bit operands the result fits the pin and is the 16-bit bitwise and |
| `AluOracle.NotExpected` | Sample16BitALUTest.java:229-231 | the result fits 16 bits and adds up with InputA's low 16 bits to 0xFFFF |
| `AluOracle.NotOnPins` | Sample16BitALUTest.java:229-231 | the result is the 16-bit complement of InputA's low bits, does not depend on InputB, and applying it twice gives InputA's low bits back |
| `AluOracle.ExpectedFor` | Sample16BitALUTest.java:41-232 | OR, XOR and LUI have no expectation; overflow is false for every opcode but ADD and SUB; for signed operands ADD/SUB give the two's-complement truncation of `a ± b` and overflow exactly out of range; without overflow ADD/SUB give `a ± b` itself; for unsigned operands ADDU/SUBU give an unsigned output with the exact result's pattern; SLT/SLTU give 0 or 1, and 1 exactly when InputA < InputB |
| `AluSamples.SampleOperandsInRange` | Sample16BitALUTest.java:130 | every sample operand fits the pin as its driver writes it: signed for the ADD/SUB and SLT arrays, unsigned for the SLTU array (lines 182 and 206) |
| `AluSamples.AddSubSamplesWrapOnce` | Sample16BitALUTest.java:133-140 | every sample pair's exact sum and difference is within the single correction's reach [-3·2^15, 3·2^15), and the pairs overflow in both directions for both operations |
| `AluSamples.ComparisonSamplesSeparateSltFromSltu` | Sample16BitALUTest.java:181-212 | both comparison drivers include a pair on which the signed and the unsigned order disagree |
| `AluSamples.SingleCaseExpectations` | Sample16BitALUTest.java:42-231 | the fixed expectations of testAddu (41364), testSubu (65436), testSubu2 (100), ltSigned (1), ltSigned2 (0), testAnd (0x0F00) and testNot (0xFFFE) |

## Left out

- The DLUnit calls `setPinUnsigned`, `setPinSigned`, `run`, `readPinUnsigned`, `readPinSigned` and `readPin`: they call into a simulator that is not part of this model. Only the values they are compared against are modelled.
- JUnit `Assert` calls and message building (`String.format`, string concatenation): reporting only.
- The nested driver loops of `testAllAddSub`, `ltSigned_allPairs` and `ltUnsigned_allPairs`: they drive pin state of the external simulator. What they check is stated for all pairs of the sample arrays (`AluSamples`), and for all operand pairs of the range (`AluOracle`).
- The `checkOverflow` parameter of `verifySigned` and `verifyUnsigned`: every caller passes `true`, so the Overflow expectation is always checked.
- `testAddition`: its expectation `23 + 44` with no overflow is the no-overflow case of `AluOracle.AddExpected`.
- OR, XOR and LUI: they have opcodes, but the suite gives no expected value for them. `AluOracle.ExpectedFor` returns no expectation for them rather than inventing one.
- ComparatorTwoBitTestWeak.java: three fixed expectations against the external simulator, with no computation; they do not determine the comparator's function.
- AluOracle.AddExpected: `a + b` (and `a - b` in `SubExpected`) is an unbounded integer; Java's 64-bit wrap-around of `long` is not modelled, because the pins only accept 16-bit operands.
- AluOracle.ExpectedFor: for AND and NOT it states only that overflow is false. Their values are stated on bit-vectors by `AndOnPins` and `NotOnPins`, because proofs relating a bit-vector to its integer value are too costly for the solver.
