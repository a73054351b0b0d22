/** The arithmetic-logic unit: eight byte operations, each returning the
    truncated result together with the zero, carry, overflow and negative
    flags computed from it. */
module Alu {
  import opened Base

  datatype AluResult = AluResult(sum: byte, isZero: bool, isCarry: bool, isOverflow: bool, isNegative: bool)

  /** The binary operations the CPU dispatches to (`not` is unary). */
  datatype BinaryOp = Add | Sub | And | Or | Xor | Shl | Shr

  /** `(x & 0x80) === 0x80`: bit 7, the sign bit of a two's-complement byte,
      is set exactly in the upper half of the byte range (see SignBitIsBit7). */
  predicate SignBit(x: byte) {
    x >= 0x80
  }

  /** The bitwise operations of JavaScript on two bytes. */
  function BitAnd(x: byte, y: byte): byte { ((x as bv8) & (y as bv8)) as int }
  function BitOr(x: byte, y: byte): byte { ((x as bv8) | (y as bv8)) as int }
  function BitXor(x: byte, y: byte): byte { ((x as bv8) ^ (y as bv8)) as int }
  /** `(~x) & 0xFF`: the complement of the low eight bits (see NotMatchesVector). */
  function BitNot(x: byte): byte { 255 - x }

  /** The overflow rule shared by every binary operation: both operands
      carry the same sign bit and the result's sign bit differs from it. */
  predicate IsOverflow(lhs: byte, rhs: byte, sum: byte) {
    if SignBit(lhs) == SignBit(rhs) then SignBit(lhs) != SignBit(sum) else false
  }

  /** Packs a result with the flags derived from it; the carry flag is never set. */
  function Report(lhs: byte, rhs: byte, sum: byte): AluResult {
    AluResult(sum, sum == 0, false, IsOverflow(lhs, rhs, sum), SignBit(sum))
  }

  /** `(x << n) & 0xFF` on JavaScript's 32-bit integers, for a count below 32. */
  function ShiftLeft(x: byte, n: nat): byte
    requires n < 32
  {
    (((x as bv32) << n) & 0xFF) as int
  }

  /** `x >>> n` on JavaScript's 32-bit integers, for a count below 32. */
  function ShiftRight(x: byte, n: nat): byte
    requires n < 32
  {
    ((x as bv32) >> n) as int
  }

  /** `(~value) & 0xFF`; `not` never reports overflow. */
  function Not(value: byte): AluResult {
    var sum := BitNot(value);
    AluResult(sum, sum == 0, false, false, SignBit(sum))
  }

  function Binary(op: BinaryOp, lhs: byte, rhs: byte): AluResult {
    Report(lhs, rhs, SumOf(op, lhs, rhs))
  }

  /** The truncated result of each binary operation. JavaScript masks a shift
      count to its low five bits before shifting. */
  function SumOf(op: BinaryOp, lhs: byte, rhs: byte): byte {
    match op
    case Add => (lhs + rhs) % 256
    case Sub => (lhs - rhs) % 256
    case And => BitAnd(lhs, rhs)
    case Or  => BitOr(lhs, rhs)
    case Xor => BitXor(lhs, rhs)
    case Shl => ShiftLeft(lhs, rhs % 32)
    case Shr => ShiftRight(lhs, rhs % 32)
  }

  /** The value of a byte read as a two's-complement signed number. */
  function Signed(x: byte): int {
    if x < 128 then x else x - 256
  }

  // ---------------------------------------------------------------------
  // Bit-level helpers: conversions between bytes and 8-bit vectors.

  lemma ByteRoundTrip(x: byte)
    ensures (x as bv8) as int == x
  {
    if x < 128 {
      if x < 64 { } else { }
    } else {
      if x < 192 { } else { }
    }
  }

  lemma VectorRoundTrip(b: bv8)
    ensures (b as int) as bv8 == b
  {
  }

  lemma SignBitIsBit7(x: byte)
    ensures SignBit(x) <==> (x as bv8) & 0x80 == 0x80
  {
  }

  lemma ComplementOfVector(b: bv8)
    ensures (!b) as int == 255 - b as int
  {
  }

  /** The complement used by NOT is the bitwise complement of the byte's
      eight-bit vector. */
  lemma NotMatchesVector(x: byte)
    ensures BitNot(x) == (!(x as bv8)) as int
  {
    ComplementOfVector(x as bv8);
    ByteRoundTrip(x);
  }

  // ---------------------------------------------------------------------
  // Properties of the flags.

  /** Every binary operation reports zero exactly for a zero result, negative
      exactly for a result of 0x80 or more, never a carry, and overflow exactly
      when the operands agree in sign and the result does not. */
  lemma BinaryFlags(op: BinaryOp, lhs: byte, rhs: byte)
    ensures Binary(op, lhs, rhs).isZero <==> Binary(op, lhs, rhs).sum == 0
    ensures Binary(op, lhs, rhs).isNegative <==> Binary(op, lhs, rhs).sum >= 128
    ensures !Binary(op, lhs, rhs).isCarry
    ensures Binary(op, lhs, rhs).isOverflow
        <==> (lhs >= 128) == (rhs >= 128) && (Binary(op, lhs, rhs).sum >= 128) != (lhs >= 128)
  {
  }

  /** `not` is the bitwise complement 255 - x, its flags describe that result,
      and applying it twice restores the operand. */
  lemma NotComplement(x: byte)
    ensures Not(x).sum == 255 - x
    ensures Not(x).isZero <==> x == 255
    ensures Not(x).isNegative <==> x < 128
    ensures !Not(x).isCarry && !Not(x).isOverflow
    ensures Not(Not(x).sum).sum == x
  {
  }

  /** For addition the overflow flag is exactly signed overflow: it is set
      when the true sum of the signed operands leaves [-128, 127], and
      otherwise the result is that true sum. */
  lemma AddOverflowIsSignedOverflow(lhs: byte, rhs: byte)
    ensures Binary(Add, lhs, rhs).isOverflow <==> !(-128 <= Signed(lhs) + Signed(rhs) <= 127)
    ensures !Binary(Add, lhs, rhs).isOverflow ==> Signed(Binary(Add, lhs, rhs).sum) == Signed(lhs) + Signed(rhs)
  {
    BinaryFlags(Add, lhs, rhs);
  }

  /** Subtraction reports overflow by comparing the sign bits of the operands
      as given, not of the negated right operand: 1 - 2 is flagged although
      -1 fits in a byte, and 0x80 - 1 is not flagged although -129 does not. */
  lemma SubOverflowComparesUnnegatedOperands()
    ensures Binary(Sub, 1, 2).isOverflow && -128 <= Signed(1) - Signed(2) <= 127
    ensures !Binary(Sub, 0x80, 1).isOverflow && Signed(0x80) - Signed(1) < -128
  {
    BinaryFlags(Sub, 1, 2);
    BinaryFlags(Sub, 0x80, 1);
  }

  // ---------------------------------------------------------------------
  // Algebraic partners of the operations.

  /** Subtraction undoes addition and addition undoes subtraction. */
  lemma AddSubInverse(x: byte, y: byte)
    ensures Binary(Sub, Binary(Add, x, y).sum, y).sum == x
    ensures Binary(Add, Binary(Sub, x, y).sum, y).sum == x
  {
    if x + y < 256 {
      assert Binary(Add, x, y).sum == x + y;
    } else {
      assert Binary(Add, x, y).sum == x + y - 256;
    }
    if x >= y {
      assert Binary(Sub, x, y).sum == x - y;
    } else {
      assert Binary(Sub, x, y).sum == x - y + 256;
    }
  }

  /** Subtracting y is adding its two's complement 256 - y. */
  lemma SubIsAddOfNegation(x: byte, y: byte)
    ensures Binary(Sub, x, y).sum == Binary(Add, x, (256 - y) % 256).sum
  {
  }

  /** A value xor-ed with itself is zero, and xor-ing twice with the same
      mask restores the value. */
  lemma XorInvolution(x: byte, y: byte)
    ensures Binary(Xor, x, x).sum == 0 && Binary(Xor, x, x).isZero
    ensures Binary(Xor, Binary(Xor, x, y).sum, y).sum == x
  {
    var b := (x as bv8) ^ (y as bv8);
    var c := BitXor(x, y);
    assert c == b as int;
    VectorRoundTrip(b);
    assert c as bv8 == b;
    XorCancels(x as bv8, y as bv8);
    ByteRoundTrip(x);
    assert BitXor(c, y) == x;
    assert BitXor(x, x) == 0 by {
      XorCancels(0, x as bv8);
    }
  }

  lemma XorCancels(a: bv8, b: bv8)
    ensures (a ^ b) ^ b == a
  {
  }

  /** And-ing with 0xFF and or-ing with 0 leave a value unchanged; and-ing with 0
      and or-ing with 0xFF saturate it. */
  lemma AndOrIdentities(x: byte)
    ensures Binary(And, x, 0xFF).sum == x && Binary(Or, x, 0).sum == x
    ensures Binary(And, x, 0).sum == 0 && Binary(Or, x, 0xFF).sum == 0xFF
  {
    ByteRoundTrip(x);
  }

  /** Shift counts are taken modulo 32, and a count whose low five bits are 8
      or more moves every bit of a byte out: both shifts give zero. */
  lemma WideShiftsClear(x: byte, n: byte)
    requires n % 32 >= 8
    ensures Binary(Shl, x, n).sum == 0 && Binary(Shl, x, n).isZero
    ensures Binary(Shr, x, n).sum == 0 && Binary(Shr, x, n).isZero
  {
  }

  lemma ShiftCountIsModular(x: byte, n: byte)
    requires n + 32 < 256
    ensures Binary(Shl, x, n + 32).sum == Binary(Shl, x, n).sum
    ensures Binary(Shr, x, n + 32).sum == Binary(Shr, x, n).sum
  {
    assert (n + 32) % 32 == n % 32;
  }

  /** 2 to the power n. */
  function Pow2(n: nat): (p: nat)
    ensures p >= 1
  {
    if n == 0 then 1 else 2 * Pow2(n - 1)
  }

  /** A shift by a count below eight moves the bits of the byte as
      multiplying by 2^n and keeping the low byte, or dividing by 2^n and
      dropping the remainder, does. */
  lemma ShiftsAreArithmetic(x: byte, n: byte)
    requires n < 8
    ensures Binary(Shl, x, n).sum == (x * Pow2(n)) % 256
    ensures Binary(Shr, x, n).sum == x / Pow2(n)
  {
    assert n % 32 == n;
    ShiftCounts(x, n);
  }

  lemma ShiftCounts(x: byte, n: nat)
    requires n < 8
    ensures ShiftLeft(x, n) == (x * Pow2(n)) % 256
    ensures ShiftRight(x, n) == x / Pow2(n)
  {
    if n == 0 {
      Widen(x);
      ByteRoundTrip(x);
    } else if n == 1 {
      assert Pow2(1) == 2;
      ShiftBy1(x);
    } else if n == 2 {
      assert Pow2(2) == 4;
      ShiftBy2(x);
    } else if n == 3 {
      assert Pow2(3) == 8;
      ShiftBy3(x);
    } else if n == 4 {
      assert Pow2(4) == 16;
      ShiftBy4(x);
    } else if n == 5 {
      assert Pow2(5) == 32;
      ShiftBy5(x);
    } else if n == 6 {
      assert Pow2(6) == 64;
      ShiftBy6(x);
    } else {
      assert Pow2(7) == 128;
      ShiftBy7(x);
    }
  }

  lemma Widen(x: byte)
    ensures x as bv32 == (x as bv8) as bv32
  {
    ByteRoundTrip(x);
  }

  /** The 32-bit shifts of an eight-bit vector, masked to eight bits, are
      its eight-bit shifts. */
  lemma NarrowShifts(b: bv8, n: nat)
    requires n < 8
    ensures (((b as bv32) << n) & 0xFF) as int == (b << n) as int
    ensures ((b as bv32) >> n) as int == (b >> n) as int
  {
    assert ((b as bv32) << n) & 0xFF == (b << n) as bv32;
    assert (b as bv32) >> n == (b >> n) as bv32;
  }

  lemma ShiftBy1(x: byte)
    ensures ShiftLeft(x, 1) == (x * 2) % 256 && ShiftRight(x, 1) == x / 2
  {
    Widen(x);
    NarrowShifts(x as bv8, 1);
    ByteRoundTrip(x);
    VectorBy1(x as bv8);
  }

  lemma VectorBy1(b: bv8)
    ensures (b << 1) as int == (b as int * 2) % 256 && (b >> 1) as int == b as int / 2
  {
  }

  lemma ShiftBy2(x: byte)
    ensures ShiftLeft(x, 2) == (x * 4) % 256 && ShiftRight(x, 2) == x / 4
  {
    Widen(x);
    NarrowShifts(x as bv8, 2);
    ByteRoundTrip(x);
    VectorBy2(x as bv8);
  }

  lemma VectorBy2(b: bv8)
    ensures (b << 2) as int == (b as int * 4) % 256 && (b >> 2) as int == b as int / 4
  {
  }

  lemma ShiftBy3(x: byte)
    ensures ShiftLeft(x, 3) == (x * 8) % 256 && ShiftRight(x, 3) == x / 8
  {
    Widen(x);
    NarrowShifts(x as bv8, 3);
    ByteRoundTrip(x);
    VectorBy3(x as bv8);
  }

  lemma VectorBy3(b: bv8)
    ensures (b << 3) as int == (b as int * 8) % 256 && (b >> 3) as int == b as int / 8
  {
  }

  lemma ShiftBy4(x: byte)
    ensures ShiftLeft(x, 4) == (x * 16) % 256 && ShiftRight(x, 4) == x / 16
  {
    Widen(x);
    NarrowShifts(x as bv8, 4);
    ByteRoundTrip(x);
    VectorBy4(x as bv8);
  }

  lemma VectorBy4(b: bv8)
    ensures (b << 4) as int == (b as int * 16) % 256 && (b >> 4) as int == b as int / 16
  {
  }

  lemma ShiftBy5(x: byte)
    ensures ShiftLeft(x, 5) == (x * 32) % 256 && ShiftRight(x, 5) == x / 32
  {
    Widen(x);
    NarrowShifts(x as bv8, 5);
    ByteRoundTrip(x);
    VectorBy5(x as bv8);
  }

  lemma VectorBy5(b: bv8)
    ensures (b << 5) as int == (b as int * 32) % 256 && (b >> 5) as int == b as int / 32
  {
  }

  lemma ShiftBy6(x: byte)
    ensures ShiftLeft(x, 6) == (x * 64) % 256 && ShiftRight(x, 6) == x / 64
  {
    Widen(x);
    NarrowShifts(x as bv8, 6);
    ByteRoundTrip(x);
    VectorBy6(x as bv8);
  }

  lemma VectorBy6(b: bv8)
    ensures (b << 6) as int == (b as int * 64) % 256 && (b >> 6) as int == b as int / 64
  {
  }

  lemma ShiftBy7(x: byte)
    ensures ShiftLeft(x, 7) == (x * 128) % 256 && ShiftRight(x, 7) == x / 128
  {
    Widen(x);
    NarrowShifts(x as bv8, 7);
    ByteRoundTrip(x);
    VectorBy7(x as bv8);
  }

  lemma VectorBy7(b: bv8)
    ensures (b << 7) as int == (b as int * 128) % 256 && (b >> 7) as int == b as int / 128
  {
  }

  /** The documented examples of addition and subtraction. */
  lemma ArithmeticExamples()
    ensures Binary(Add, 0x01, 0x01) == AluResult(0x02, false, false, false, false)
    ensures Binary(Add, 0xFF, 0x01) == AluResult(0x00, true, false, false, false)
    ensures Binary(Add, 0x7F, 0x01) == AluResult(0x80, false, false, true, true)
    ensures Binary(Add, 0x80, 0xFF) == AluResult(0x7F, false, false, true, false)
    ensures Binary(Sub, 0x01, 0x02) == AluResult(0xFF, false, false, true, true)
    ensures Binary(Sub, 0x00, 0x05) == AluResult(0xFB, false, false, true, true)
    ensures Binary(Sub, 0xFF, 0xFE) == AluResult(0x01, false, false, true, false)
    ensures Binary(Sub, 0x80, 0x01) == AluResult(0x7F, false, false, false, false)
    ensures Binary(Sub, 0x7F, 0xFF) == AluResult(0x80, false, false, false, true)
  {
  }

  /** The documented examples of the bitwise operations. */
  lemma LogicExamples()
    ensures Binary(And, 0xFF, 0xAA) == AluResult(0xAA, false, false, false, true)
    ensures Binary(And, 0xFF, 0x00) == AluResult(0x00, true, false, false, false)
    ensures Binary(Or, 0x5, 0x3).sum == 0x7 && Binary(Or, 0x2, 0x8).sum == 0xA
    ensures Binary(Xor, 0x5, 0x3).sum == 0x6 && Binary(Xor, 0x2, 0xA).sum == 0x8
    ensures Not(0x07) == AluResult(0xF8, false, false, false, true)
    ensures Not(0xAB).sum == 0x54
    ensures Not(0xFF) == AluResult(0x00, true, false, false, false)
  {
    AndOrIdentities(0xAA);
    AndOrIdentities(0xFF);
    NotComplement(0x07);
    NotComplement(0xAB);
    NotComplement(0xFF);
  }

  /** The documented examples of the left shift. */
  lemma ShlExamples()
    ensures Binary(Shl, 0x17, 0x1) == AluResult(0x2E, false, false, false, false)
    ensures Binary(Shl, 0x5C, 0x1) == AluResult(0xB8, false, false, true, true)
    ensures Binary(Shl, 0x17, 0x2).sum == 0x5C
  {
    assert SumOf(Shl, 0x17, 0x1) == 0x2E;
    assert SumOf(Shl, 0x5C, 0x1) == 0xB8;
  }

  /** The documented examples of the right shift. */
  lemma ShrExamples()
    ensures Binary(Shr, 0x97, 0x1).sum == 0x4B && Binary(Shr, 0x97, 0x2).sum == 0x25
  {
  }
}
