/** The machine's instruction encoding: the opcode byte of every instruction
    form, the decoded view of an opcode the CPU dispatches on, and the number
    of bytes each form occupies. */
module Opcodes {
  import opened Base
  import opened Alu

  // The opcode table. Codes 0x25 to 0x2E are unassigned.
  const NONE: byte := 0x00
  const MOV_REG_TO_REG: byte := 0x01
  const MOV_REG_TO_ADDR: byte := 0x02
  const MOV_REG_TO_REGADDR: byte := 0x03
  const MOV_ADDR_TO_REG: byte := 0x04
  const MOV_REGADDR_TO_REG: byte := 0x05
  const MOV_NUM_TO_REG: byte := 0x06
  const MOV_NUM_TO_ADDR: byte := 0x07
  const MOV_NUM_TO_REGADDR: byte := 0x08
  const ADD_REG_TO_REG: byte := 0x09
  const ADD_ADDR_TO_REG: byte := 0x0A
  const ADD_REGADDR_TO_REG: byte := 0x0B
  const ADD_NUM_TO_REG: byte := 0x0C
  const SUBT_REG_FROM_REG: byte := 0x0D
  const SUBT_ADDR_FROM_REG: byte := 0x0E
  const SUBT_REGADDR_FROM_REG: byte := 0x0F
  const SUBT_NUM_FROM_REG: byte := 0x10
  const INC_REG: byte := 0x11
  const DEC_REG: byte := 0x12
  const CMP_REG_TO_REG: byte := 0x13
  const CMP_ADDR_TO_REG: byte := 0x14
  const CMP_REGADDR_TO_REG: byte := 0x15
  const CMP_NUM_TO_REG: byte := 0x16
  const JMP_ADDR: byte := 0x17
  const JMP_REGADDR: byte := 0x18
  const JC_ADDR: byte := 0x19
  const JC_REGADDR: byte := 0x1A
  const JNC_ADDR: byte := 0x1B
  const JNC_REGADDR: byte := 0x1C
  const JZ_ADDR: byte := 0x1D
  const JZ_REGADDR: byte := 0x1E
  const JNZ_ADDR: byte := 0x1F
  const JNZ_REGADDR: byte := 0x20
  const JA_ADDR: byte := 0x21
  const JA_REGADDR: byte := 0x22
  const JNA_ADDR: byte := 0x23
  const JNA_REGADDR: byte := 0x24
  const CALL_ADDR: byte := 0x2F
  const CALL_REGADDR: byte := 0x30
  const RET: byte := 0x31
  const PUSH_REG: byte := 0x32
  const PUSH_ADDR: byte := 0x33
  const PUSH_REGADDR: byte := 0x34
  const PUSH_NUM: byte := 0x35
  const POP_REG: byte := 0x36
  const AND_REG_TO_REG: byte := 0x37
  const AND_ADDR_TO_REG: byte := 0x38
  const AND_REGADDR_TO_REG: byte := 0x39
  const AND_NUM_TO_REG: byte := 0x3A
  const OR_REG_TO_REG: byte := 0x3B
  const OR_ADDR_TO_REG: byte := 0x3C
  const OR_REGADDR_TO_REG: byte := 0x3D
  const OR_NUM_TO_REG: byte := 0x3E
  const XOR_REG_TO_REG: byte := 0x3F
  const XOR_ADDR_TO_REG: byte := 0x40
  const XOR_REGADDR_TO_REG: byte := 0x41
  const XOR_NUM_TO_REG: byte := 0x42
  const SHL_REG_TO_REG: byte := 0x43
  const SHL_ADDR_TO_REG: byte := 0x44
  const SHL_REGADDR_TO_REG: byte := 0x45
  const SHL_NUM_TO_REG: byte := 0x46
  const SHR_REG_TO_REG: byte := 0x47
  const SHR_ADDR_TO_REG: byte := 0x48
  const SHR_REGADDR_TO_REG: byte := 0x49
  const SHR_NUM_TO_REG: byte := 0x4A
  const NOT_REG: byte := 0x4B

  /** Where the second (or only) operand of an arithmetic, compare or push
      instruction comes from: a register, a memory address, a memory address
      held in a register, or an immediate number. */
  datatype Source = Reg | Addr | RegAddr | Num

  /** The eight forms of MOV, written destination-last as in the opcode names. */
  datatype MovForm =
    | RegToReg | RegToAddr | RegToRegAddr | AddrToReg
    | RegAddrToReg | NumToReg | NumToAddr | NumToRegAddr

  /** The jump conditions, as flag tests (see Cpu.Taken). */
  datatype Condition = Always | Carry | NoCarry | Zero | NotZero | Above | NotAbove

  /** How a jump or call names its destination: `Direct` (the `_ADDR` forms)
      carries the address itself, `Indirect` (the `_REGADDR` forms) names a
      register that holds it. */
  datatype Target = Direct | Indirect

  /** An instruction form: one per opcode. `Halt` is opcode NONE. */
  datatype Instr =
    | Halt
    | Mov(form: MovForm)
    | Arith(op: BinaryOp, src: Source)
    | IncReg
    | DecReg
    | Cmp(src: Source)
    | Jump(cond: Condition, target: Target)
    | Call(target: Target)
    | Ret
    | Push(src: Source)
    | PopReg
    | NotReg

  /** ADD, SUBT, AND, OR, XOR, SHL and SHR have one opcode per source; the
      CPU's switch has no case for a multiply or divide opcode. */
  function Encode(i: Instr): byte {
    match i
    case Halt => NONE
    case Mov(RegToReg) => MOV_REG_TO_REG
    case Mov(RegToAddr) => MOV_REG_TO_ADDR
    case Mov(RegToRegAddr) => MOV_REG_TO_REGADDR
    case Mov(AddrToReg) => MOV_ADDR_TO_REG
    case Mov(RegAddrToReg) => MOV_REGADDR_TO_REG
    case Mov(NumToReg) => MOV_NUM_TO_REG
    case Mov(NumToAddr) => MOV_NUM_TO_ADDR
    case Mov(NumToRegAddr) => MOV_NUM_TO_REGADDR
    case Arith(Add, Reg) => ADD_REG_TO_REG
    case Arith(Add, Addr) => ADD_ADDR_TO_REG
    case Arith(Add, RegAddr) => ADD_REGADDR_TO_REG
    case Arith(Add, Num) => ADD_NUM_TO_REG
    case Arith(Sub, Reg) => SUBT_REG_FROM_REG
    case Arith(Sub, Addr) => SUBT_ADDR_FROM_REG
    case Arith(Sub, RegAddr) => SUBT_REGADDR_FROM_REG
    case Arith(Sub, Num) => SUBT_NUM_FROM_REG
    case IncReg => INC_REG
    case DecReg => DEC_REG
    case Cmp(Reg) => CMP_REG_TO_REG
    case Cmp(Addr) => CMP_ADDR_TO_REG
    case Cmp(RegAddr) => CMP_REGADDR_TO_REG
    case Cmp(Num) => CMP_NUM_TO_REG
    case Jump(Always, Direct) => JMP_ADDR
    case Jump(Always, Indirect) => JMP_REGADDR
    case Jump(Carry, Direct) => JC_ADDR
    case Jump(Carry, Indirect) => JC_REGADDR
    case Jump(NoCarry, Direct) => JNC_ADDR
    case Jump(NoCarry, Indirect) => JNC_REGADDR
    case Jump(Zero, Direct) => JZ_ADDR
    case Jump(Zero, Indirect) => JZ_REGADDR
    case Jump(NotZero, Direct) => JNZ_ADDR
    case Jump(NotZero, Indirect) => JNZ_REGADDR
    case Jump(Above, Direct) => JA_ADDR
    case Jump(Above, Indirect) => JA_REGADDR
    case Jump(NotAbove, Direct) => JNA_ADDR
    case Jump(NotAbove, Indirect) => JNA_REGADDR
    case Call(Direct) => CALL_ADDR
    case Call(Indirect) => CALL_REGADDR
    case Ret => RET
    case Push(Reg) => PUSH_REG
    case Push(Addr) => PUSH_ADDR
    case Push(RegAddr) => PUSH_REGADDR
    case Push(Num) => PUSH_NUM
    case PopReg => POP_REG
    case Arith(And, Reg) => AND_REG_TO_REG
    case Arith(And, Addr) => AND_ADDR_TO_REG
    case Arith(And, RegAddr) => AND_REGADDR_TO_REG
    case Arith(And, Num) => AND_NUM_TO_REG
    case Arith(Or, Reg) => OR_REG_TO_REG
    case Arith(Or, Addr) => OR_ADDR_TO_REG
    case Arith(Or, RegAddr) => OR_REGADDR_TO_REG
    case Arith(Or, Num) => OR_NUM_TO_REG
    case Arith(Xor, Reg) => XOR_REG_TO_REG
    case Arith(Xor, Addr) => XOR_ADDR_TO_REG
    case Arith(Xor, RegAddr) => XOR_REGADDR_TO_REG
    case Arith(Xor, Num) => XOR_NUM_TO_REG
    case Arith(Shl, Reg) => SHL_REG_TO_REG
    case Arith(Shl, Addr) => SHL_ADDR_TO_REG
    case Arith(Shl, RegAddr) => SHL_REGADDR_TO_REG
    case Arith(Shl, Num) => SHL_NUM_TO_REG
    case Arith(Shr, Reg) => SHR_REG_TO_REG
    case Arith(Shr, Addr) => SHR_ADDR_TO_REG
    case Arith(Shr, RegAddr) => SHR_REGADDR_TO_REG
    case Arith(Shr, Num) => SHR_NUM_TO_REG
    case NotReg => NOT_REG
  }

  /** The CPU's dispatch on the instruction register: the form an opcode
      selects, or None when the switch reaches its default case. */
  function Decode(code: int): Option<Instr> {
    match code
    case 0x00 => Some(Halt)
    case 0x01 => Some(Mov(RegToReg))
    case 0x02 => Some(Mov(RegToAddr))
    case 0x03 => Some(Mov(RegToRegAddr))
    case 0x04 => Some(Mov(AddrToReg))
    case 0x05 => Some(Mov(RegAddrToReg))
    case 0x06 => Some(Mov(NumToReg))
    case 0x07 => Some(Mov(NumToAddr))
    case 0x08 => Some(Mov(NumToRegAddr))
    case 0x09 => Some(Arith(Add, Reg))
    case 0x0A => Some(Arith(Add, Addr))
    case 0x0B => Some(Arith(Add, RegAddr))
    case 0x0C => Some(Arith(Add, Num))
    case 0x0D => Some(Arith(Sub, Reg))
    case 0x0E => Some(Arith(Sub, Addr))
    case 0x0F => Some(Arith(Sub, RegAddr))
    case 0x10 => Some(Arith(Sub, Num))
    case 0x11 => Some(IncReg)
    case 0x12 => Some(DecReg)
    case 0x13 => Some(Cmp(Reg))
    case 0x14 => Some(Cmp(Addr))
    case 0x15 => Some(Cmp(RegAddr))
    case 0x16 => Some(Cmp(Num))
    case 0x17 => Some(Jump(Always, Direct))
    case 0x18 => Some(Jump(Always, Indirect))
    case 0x19 => Some(Jump(Carry, Direct))
    case 0x1A => Some(Jump(Carry, Indirect))
    case 0x1B => Some(Jump(NoCarry, Direct))
    case 0x1C => Some(Jump(NoCarry, Indirect))
    case 0x1D => Some(Jump(Zero, Direct))
    case 0x1E => Some(Jump(Zero, Indirect))
    case 0x1F => Some(Jump(NotZero, Direct))
    case 0x20 => Some(Jump(NotZero, Indirect))
    case 0x21 => Some(Jump(Above, Direct))
    case 0x22 => Some(Jump(Above, Indirect))
    case 0x23 => Some(Jump(NotAbove, Direct))
    case 0x24 => Some(Jump(NotAbove, Indirect))
    case 0x2F => Some(Call(Direct))
    case 0x30 => Some(Call(Indirect))
    case 0x31 => Some(Ret)
    case 0x32 => Some(Push(Reg))
    case 0x33 => Some(Push(Addr))
    case 0x34 => Some(Push(RegAddr))
    case 0x35 => Some(Push(Num))
    case 0x36 => Some(PopReg)
    case 0x37 => Some(Arith(And, Reg))
    case 0x38 => Some(Arith(And, Addr))
    case 0x39 => Some(Arith(And, RegAddr))
    case 0x3A => Some(Arith(And, Num))
    case 0x3B => Some(Arith(Or, Reg))
    case 0x3C => Some(Arith(Or, Addr))
    case 0x3D => Some(Arith(Or, RegAddr))
    case 0x3E => Some(Arith(Or, Num))
    case 0x3F => Some(Arith(Xor, Reg))
    case 0x40 => Some(Arith(Xor, Addr))
    case 0x41 => Some(Arith(Xor, RegAddr))
    case 0x42 => Some(Arith(Xor, Num))
    case 0x43 => Some(Arith(Shl, Reg))
    case 0x44 => Some(Arith(Shl, Addr))
    case 0x45 => Some(Arith(Shl, RegAddr))
    case 0x46 => Some(Arith(Shl, Num))
    case 0x47 => Some(Arith(Shr, Reg))
    case 0x48 => Some(Arith(Shr, Addr))
    case 0x49 => Some(Arith(Shr, RegAddr))
    case 0x4A => Some(Arith(Shr, Num))
    case 0x4B => Some(NotReg)
    case _ => None
  }

  /** The bytes an instruction occupies: the opcode and one byte per operand. */
  function Size(i: Instr): nat {
    match i
    case Halt | Ret => 1
    case IncReg | DecReg | Jump(_, _) | Call(_) | Push(_) | PopReg | NotReg => 2
    case Mov(_) | Arith(_, _) | Cmp(_) => 3
  }

  function SourceIndex(s: Source): nat {
    match s
    case Reg => 0
    case Addr => 1
    case RegAddr => 2
    case Num => 3
  }

  /** Decoding inverts encoding. */
  lemma DecodeEncode(i: Instr)
    ensures Decode(Encode(i)) == Some(i)
  {
  }

  /** Encoding inverts decoding wherever decoding succeeds. */
  lemma EncodeDecode(code: int)
    requires Decode(code).Some?
    ensures Encode(Decode(code).value) == code
  {
    if code < 0x12 {
    } else if code <= 0x24 {
    } else if code < 0x3F {
    } else {
    }
  }

  /** Exactly the codes 0x00-0x24 and 0x2F-0x4B are assigned. */
  lemma AssignedCodes(code: int)
    ensures Decode(code).Some? <==> (0x00 <= code <= 0x24 || 0x2F <= code <= 0x4B)
  {
  }

  /** No two instruction forms share an opcode. */
  lemma {:induction false} EncodeInjective(i: Instr, j: Instr)
    requires Encode(i) == Encode(j)
    ensures i == j
  {
    DecodeEncode(i);
    DecodeEncode(j);
  }

  /** Opcode families are laid out in a fixed order: the four sources of an
      operation are consecutive in the order register, address, register
      address, number, and every conditional jump's register-address form
      follows its address form. */
  lemma FamilyLayout(op: BinaryOp, s: Source, c: Condition)
    ensures Encode(Arith(op, s)) == Encode(Arith(op, Reg)) + SourceIndex(s)
    ensures Encode(Cmp(s)) == CMP_REG_TO_REG + SourceIndex(s)
    ensures Encode(Push(s)) == PUSH_REG + SourceIndex(s)
    ensures Encode(Jump(c, Indirect)) == Encode(Jump(c, Direct)) + 1
    ensures Encode(Call(Indirect)) == Encode(Call(Direct)) + 1
  {
  }
}
