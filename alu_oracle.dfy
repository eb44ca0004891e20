// The expected values the 16-bit ALU test suite checks the circuit against:
// the opcode table, and for each opcode the number the Output pin must read
// and whether the Overflow pin must be set. The simulator that produces the
// actual values is outside this model; only the expected side is modelled.

module AluOracle {
  import opened TwosComplement

  datatype Option<T> = None | Some(value: T)

  /** The operations the ALU selects with its 4-bit Op pin. */
  datatype Op = Addu | Subu | And | Or | Not | Xor | Lui | Sltu | Add | Sub | Slt

  /** The number a test writes to the Op pin for each operation. */
  function Code(op: Op): (c: int)
    ensures 0 <= c < 16
  {
    match op
    case Addu => 0
    case Subu => 1
    case And => 2
    case Or => 3
    case Not => 4
    case Xor => 5
    case Lui => 6
    case Sltu => 7
    case Add => 8
    case Sub => 9
    case Slt => 15
  }

  /** The operation an Op pin value selects, if any. */
  function Decode(c: int): (r: Option<Op>)
    ensures r.Some? ==> Code(r.value) == c
    ensures r.None? ==> forall op: Op :: Code(op) != c
  {
    match c
    case 0 => Some(Addu)
    case 1 => Some(Subu)
    case 2 => Some(And)
    case 3 => Some(Or)
    case 4 => Some(Not)
    case 5 => Some(Xor)
    case 6 => Some(Lui)
    case 7 => Some(Sltu)
    case 8 => Some(Add)
    case 9 => Some(Sub)
    case 15 => Some(Slt)
    case _ => None
  }

  /** Decoding an operation's code gives the operation back. */
  lemma CodeRoundTrip(op: Op)
    ensures Decode(Code(op)) == Some(op)
  {
  }

  /** No two operations share a code. */
  lemma CodesDistinct(p: Op, q: Op)
    ensures p != q ==> Code(p) != Code(q)
  {
  }

  // ---------------------------------------------------------------------------
  // Unsigned addition and subtraction

  /** Java's truncating remainder `x % 65536`: the remainder takes the sign of the dividend. */
  function JavaRemModulus(x: int): (r: int)
    ensures -Modulus < r < Modulus
    ensures Pattern(r) == Pattern(x)
    ensures r == 0 || (r > 0 <==> x > 0)
  {
    if x >= 0 then x % Modulus
    else -((-x) % Modulus)
  }

  /** Expected Output of ADDU: the exact sum reduced with Java's `%`. */
  function AdduExpected(a: int, b: int): (r: int)
    ensures a + b >= 0 ==> IsUnsigned16(r) && Pattern(r) == Pattern(a + b)
  {
    JavaRemModulus(a + b)
  }

  /**
   * Expected Output of SUBU. One test adds 2^16 to the negative difference of
   * an operand pair with a < b; the other reduces the non-negative difference
   * of a pair with a >= b with Java's `%`. Each form is used where its test uses it.
   */
  function SubuExpected(a: int, b: int): (r: int)
    ensures IsUnsigned16(a) && IsUnsigned16(b) ==> IsUnsigned16(r) && Pattern(r) == Pattern(a - b)
  {
    if a < b then Modulus + (a - b) else JavaRemModulus(a - b)
  }

  /** ADDU reads back exactly what a 16-bit adder outputs, for all unsigned operands. */
  lemma AdduIsAdderSum(a: int, b: int)
    requires IsUnsigned16(a) && IsUnsigned16(b)
    ensures AdduExpected(a, b) == AdderSum(a, b)
    ensures AdduExpected(a, b) == a + b || AdduExpected(a, b) == a + b - Modulus
  {
  }

  /** SUBU reads back exactly what a 16-bit subtracter outputs, for all unsigned operands. */
  lemma SubuIsSubtracterDifference(a: int, b: int)
    requires IsUnsigned16(a) && IsUnsigned16(b)
    ensures SubuExpected(a, b) == SubtracterDifference(a, b)
    ensures SubuExpected(a, b) == if a < b then a - b + Modulus else a - b
  {
  }

  /**
   * Neither SUBU form alone is an unsigned reading on every operand pair: `%`
   * leaves a negative difference negative, and adding 2^16 to a non-negative
   * difference leaves the 16-bit range.
   */
  lemma SubuFormsComplement(a: int, b: int)
    requires IsUnsigned16(a) && IsUnsigned16(b)
    ensures a < b ==> JavaRemModulus(a - b) == a - b < 0
    ensures a >= b ==> !IsUnsigned16(Modulus + (a - b))
  {
  }

  // ---------------------------------------------------------------------------
  // Signed addition and subtraction

  /**
   * The overflow test and the single wrap-around correction both signed tests
   * apply to the exact result: overflow when it leaves [-2^15, 2^15), and then
   * one step of 2^16 towards zero.
   */
  method SignedExpected(exact: int) returns (expected: int, overflow: bool)
    ensures overflow <==> !IsSigned16(exact)
    ensures !overflow ==> expected == exact
    ensures Pattern(expected) == Pattern(exact)
    ensures IsSigned16(expected) <==> -(Modulus + Half) <= exact < Modulus + Half
    ensures -(Modulus + Half) <= exact < Modulus + Half ==> expected == Truncate16(exact)
  {
    expected := exact;
    overflow := expected >= Half || expected < -Half;
    if overflow && expected > 0 {
      expected := expected - Modulus;
    } else if overflow && expected < 0 {
      expected := expected + Modulus;
    }
  }

  /** Expected Output and Overflow of ADD. */
  method AddExpected(a: int, b: int) returns (expected: int, overflow: bool)
    ensures overflow <==> !IsSigned16(a + b)
    ensures !overflow ==> expected == a + b
    ensures IsSigned16(a) && IsSigned16(b) ==>
              expected == Truncate16(a + b) &&
              expected == AsSigned(AdderSum(Pattern(a), Pattern(b))) &&
              (overflow <==> AdderOverflow(Pattern(a), Pattern(b)))
  {
    expected, overflow := SignedExpected(a + b);
  }

  /** Expected Output and Overflow of SUB. */
  method SubExpected(a: int, b: int) returns (expected: int, overflow: bool)
    ensures overflow <==> !IsSigned16(a - b)
    ensures !overflow ==> expected == a - b
    ensures IsSigned16(a) && IsSigned16(b) ==>
              expected == Truncate16(a - b) &&
              expected == AsSigned(SubtracterDifference(Pattern(a), Pattern(b))) &&
              (overflow <==> SubtracterOverflow(Pattern(a), Pattern(b)))
  {
    expected, overflow := SignedExpected(a - b);
  }

  /**
   * For signed operands, an adder's output read as signed is the truncated
   * sum, and its sign-bit overflow rule fires exactly when the exact sum leaves
   * the signed range.
   */
  lemma AdderMatchesSignedSum(a: int, b: int)
    requires IsSigned16(a) && IsSigned16(b)
    ensures AsSigned(AdderSum(Pattern(a), Pattern(b))) == Truncate16(a + b)
    ensures AdderOverflow(Pattern(a), Pattern(b)) <==> !IsSigned16(a + b)
  {
  }

  /** The subtracter counterpart of AdderMatchesSignedSum. */
  lemma SubtracterMatchesSignedDifference(a: int, b: int)
    requires IsSigned16(a) && IsSigned16(b)
    ensures AsSigned(SubtracterDifference(Pattern(a), Pattern(b))) == Truncate16(a - b)
    ensures SubtracterOverflow(Pattern(a), Pattern(b)) <==> !IsSigned16(a - b)
  {
  }

  // ---------------------------------------------------------------------------
  // Comparisons

  /** Expected Output of SLT (on signed readings) and of SLTU (on unsigned readings). */
  function LessThan(a: int, b: int): (r: int)
    ensures r == 0 || r == 1
  {
    if a < b then 1 else 0
  }

  /**
   * SLT as an ALU computes it from its subtracter: the sign of the wrapped
   * difference, flipped when the subtraction overflows.
   */
  lemma SltIsSignXorOverflow(a: int, b: int)
    requires IsSigned16(a) && IsSigned16(b)
    ensures LessThan(a, b) == 1 <==> ((Truncate16(a - b) < 0) != !IsSigned16(a - b))
  {
  }

  /**
   * SLTU on the unsigned readings of two pins agrees with SLT on their signed
   * readings when the sign bits agree, and is its opposite when they differ.
   */
  lemma SltuOfSignedPins(a: int, b: int)
    requires IsSigned16(a) && IsSigned16(b)
    ensures LessThan(Pattern(a), Pattern(b)) ==
              if (a < 0) == (b < 0) then LessThan(a, b) else 1 - LessThan(a, b)
  {
  }

  // ---------------------------------------------------------------------------
  // Logic operations, on the bits of Java's 64-bit `long`

  /** Expected Output of AND: the bitwise and of the operands. */
  function AndExpected(a: bv64, b: bv64): (r: bv64)
    ensures r & !a == 0 && r & !b == 0
    ensures r <= a && r <= b
  {
    a & b
  }

  /** Expected Output of NOT: the complement of InputA, masked to the pin's 16 bits. */
  function NotExpected(a: bv64, b: bv64): (r: bv64)
    ensures r <= 0xFFFF
    ensures r + (a & 0xFFFF) == 0xFFFF
  {
    (!a) & 0xFFFF
  }

  /** On 16-bit operands AND is the 16-bit pin's bitwise and, and fits the pin. */
  lemma AndOnPins(a: bv64, b: bv64)
    requires a <= 0xFFFF && b <= 0xFFFF
    ensures AndExpected(a, b) <= 0xFFFF
    ensures AndExpected(a, b) as bv16 == (a as bv16) & (b as bv16)
  {
  }

  /** NOT is the 16-bit complement of InputA's low bits, ignores InputB, and undoes itself. */
  lemma NotOnPins(a: bv64, b: bv64, c: bv64)
    ensures NotExpected(a, b) as bv16 == !((a & 0xFFFF) as bv16)
    ensures NotExpected(a, b) == NotExpected(a, c)
    ensures NotExpected(NotExpected(a, b), b) == a & 0xFFFF
  {
  }

  // ---------------------------------------------------------------------------
  // One opcode's expectation

  /** What the tests read back: the Output value and the Overflow flag. */
  datatype Expectation = Expectation(output: int, overflow: bool)

  /** The 64-bit pattern of a Java `long`. */
  function LongBits(x: int): bv64 {
    (x % 0x1_0000_0000_0000_0000) as bv64
  }

  /** The Java `long` a 64-bit pattern denotes. */
  function LongValue(w: bv64): int {
    if w < 0x8000_0000_0000_0000 then w as int else w as int - 0x1_0000_0000_0000_0000
  }

  /**
   * The expectation the tests pair with each opcode. OR, XOR and LUI have a
   * code but no expected value in the suite.
   */
  method ExpectedFor(op: Op, a: int, b: int) returns (e: Option<Expectation>)
    ensures e.None? <==> op in {Or, Xor, Lui}
    ensures e.Some? && op !in {Add, Sub} ==> !e.value.overflow
    ensures e.Some? && op in {Add, Sub} && IsSigned16(a) && IsSigned16(b) ==>
              IsSigned16(e.value.output) &&
              (e.value.overflow <==> !IsSigned16(if op == Add then a + b else a - b)) &&
              e.value.output == Truncate16(if op == Add then a + b else a - b)
    ensures e.Some? && op in {Add, Sub} && !e.value.overflow ==>
              e.value.output == (if op == Add then a + b else a - b)
    ensures e.Some? && op in {Addu, Subu} && IsUnsigned16(a) && IsUnsigned16(b) ==>
              IsUnsigned16(e.value.output) &&
              Pattern(e.value.output) == Pattern(if op == Addu then a + b else a - b)
    ensures e.Some? && op in {Slt, Sltu} ==> (e.value.output == 1 <==> a < b)
    ensures e.Some? && op in {Slt, Sltu} ==> e.value.output == 0 || e.value.output == 1
  {
    match op {
      case Addu => e := Some(Expectation(AdduExpected(a, b), false));
      case Subu => e := Some(Expectation(SubuExpected(a, b), false));
      case Add =>
        var expected, overflow := AddExpected(a, b);
        e := Some(Expectation(expected, overflow));
      case Sub =>
        var expected, overflow := SubExpected(a, b);
        e := Some(Expectation(expected, overflow));
      case Slt => e := Some(Expectation(LessThan(a, b), false));
      case Sltu => e := Some(Expectation(LessThan(a, b), false));
      case And => e := Some(Expectation(LongValue(AndExpected(LongBits(a), LongBits(b))), false));
      case Not => e := Some(Expectation(LongValue(NotExpected(LongBits(a), LongBits(b))), false));
      case Or => e := None;
      case Xor => e := None;
      case Lui => e := None;
    }
  }
}
