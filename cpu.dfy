/** The processor: program counter PC, stack register SP, the memory address and
    memory buffer registers, the instruction register, four general-purpose
    registers and the zero, carry, overflow and negative flags. `fetch`
    loads the opcode at PC into IR; `execute` performs it, moving values
    through MAR and MBR one register transfer at a time. */
module Cpu {
  import opened Base
  import opened Alu
  import opened Opcodes
  import opened MemoryUnit

  /** SP after a reset; the stack grows towards address 0. */
  const MaxSP: int := 231

  /** The general-purpose registers A, B, C and D. */
  const RegisterCount: int := 4

  /** The processor state the instructions act on, with the memory cells.
      MAR and MBR, the scratch registers of the register transfers, are not
      part of it. */
  datatype Machine = Machine(
    pc: int, sp: int, ir: int, gpr: seq<byte>,
    zero: bool, carry: bool, overflow: bool, negative: bool, halt: bool,
    cells: seq<byte>)

  /** The state after `reset`, over the given memory. */
  function PowerOn(cells: seq<byte>): Machine {
    Machine(0, MaxSP, 0, [0, 0, 0, 0], false, false, false, false, false, cells)
  }

  // ---------------------------------------------------------------------
  // The register transfers, as functions of the state.

  /** The k-th byte after the opcode. */
  function Operand(m: Machine, k: int): Result<byte> {
    ReadCell(m.cells, m.pc + k)
  }

  /** A register named by an operand byte; the register file has four. */
  function Register(m: Machine, r: int): Result<byte> {
    if 0 <= r < |m.gpr| then Ok(m.gpr[r]) else Err(BadRegister(r))
  }

  function StoreRegister(m: Machine, r: int, v: byte): Result<Machine> {
    if 0 <= r < |m.gpr| then Ok(m.(gpr := m.gpr[r := v])) else Err(BadRegister(r))
  }

  function StoreCell(m: Machine, a: int, v: int): Result<Machine> {
    var cells :- WriteCell(m.cells, a, v);
    Ok(m.(cells := cells))
  }

  /** The value a source operand denotes, given its operand byte b: a
      register, a memory cell, the cell a register points to, or b itself. */
  function SourceValue(m: Machine, s: Source, b: byte): Result<byte> {
    match s
    case Reg => Register(m, b)
    case Addr => ReadCell(m.cells, b)
    case RegAddr => var a :- Register(m, b); ReadCell(m.cells, a)
    case Num => Ok(b)
  }

  /** A jump or call goes to its operand, or to the memory cell addressed
      by the register its operand names. */
  function TargetSource(t: Target): Source {
    match t
    case Direct => Num
    case Indirect => RegAddr
  }

  /** The value of the operand after PC, read through s: the operand of
      PUSH, a jump or a call, and the second operand of a two-operand
      instruction once PC has moved onto the first. */
  function SingleOperand(s: Source, m: Machine): Result<byte> {
    var b :- Operand(m, 1);
    SourceValue(m, s, b)
  }

  /** The destination register and the source value of a two-operand
      instruction whose first operand names a register. */
  function LoadOperands(s: Source, m: Machine): Result<(byte, byte)> {
    var d :- Operand(m, 1);
    var v :- SingleOperand(s, m.(pc := m.pc + 1));
    Ok((d, v))
  }

  /** As LoadOperands, with the destination register's own value in the
      middle: the ALU's left and right inputs. */
  function AluOperands(s: Source, m: Machine): Result<(byte, byte, byte)> {
    var dv :- LoadOperands(s, m);
    var x :- Register(m, dv.0);
    Ok((dv.0, x, dv.1))
  }

  /** `perform_operation`: zero, overflow and negative come from the ALU;
      the carry flag is left alone. */
  function Flags(m: Machine, res: AluResult): Machine {
    m.(zero := res.isZero, overflow := res.isOverflow, negative := res.isNegative)
  }

  /** The last steps of an ALU instruction that writes back, with PC on the
      last operand: the flags, the result into register d, PC past it. */
  function WriteResult(m: Machine, d: int, res: AluResult): Result<Machine> {
    StoreRegister(Flags(m, res).(pc := m.pc + 1), d, res.sum)
  }

  /** `push_to_stack`, with PC on the operand: the address after it goes to
      M[SP], SP moves down and PC moves on. */
  function PushNext(m: Machine): Result<Machine> {
    var pushed :- StoreCell(m, m.sp, m.pc + 1);
    Ok(pushed.(sp := m.sp - 1, pc := m.pc + 1))
  }

  /** Whether a jump is taken, read off the carry and zero flags as the CPU
      tests them. */
  predicate Taken(c: Condition, carry: bool, zero: bool) {
    match c
    case Always => true
    case Carry => carry
    case NoCarry => !carry
    case Zero => zero
    case NotZero => !zero
    case Above => !carry && !zero
    case NotAbove => carry && zero
  }

  // ---------------------------------------------------------------------
  // One function per instruction family.

  /** The MOV forms into a register read their source as ADD does. */
  function LoadSource(f: MovForm): Source {
    match f
    case RegToReg => Reg
    case AddrToReg => Addr
    case RegAddrToReg => RegAddr
    case _ => Num
  }

  predicate StoresToMemory(f: MovForm) {
    f == RegToAddr || f == RegToRegAddr || f == NumToAddr || f == NumToRegAddr
  }

  /** The address and value of the MOV forms into memory, in the order the
      CPU reads them: the register behind a REGADDR destination is read
      before the second operand for REG_TO_REGADDR and after it for
      NUM_TO_REGADDR. */
  function StoreOperands(f: MovForm, m: Machine): Result<(int, byte)>
    requires StoresToMemory(f)
  {
    var first :- Operand(m, 1);
    if f == RegToAddr then
      var v :- SingleOperand(Reg, m.(pc := m.pc + 1)); Ok((first, v))
    else if f == RegToRegAddr then
      var a :- Register(m, first); var v :- SingleOperand(Reg, m.(pc := m.pc + 1)); Ok((a, v))
    else if f == NumToAddr then
      var n :- Operand(m, 2); Ok((first, n))
    else
      var n :- Operand(m, 2); var a :- Register(m, first); Ok((a, n))
  }

  function RunMov(f: MovForm, m: Machine): Result<Machine> {
    if StoresToMemory(f) then MovToMemory(f, m) else MovToRegister(f, m)
  }

  function MovToMemory(f: MovForm, m: Machine): Result<Machine>
    requires StoresToMemory(f)
  {
    var av :- StoreOperands(f, m);
    StoreCell(m.(pc := m.pc + 3), av.0, av.1)
  }

  function MovToRegister(f: MovForm, m: Machine): Result<Machine> {
    var dv :- LoadOperands(LoadSource(f), m);
    StoreRegister(m.(pc := m.pc + 3), dv.0, dv.1)
  }

  /** ADD, SUBT, AND, OR, XOR, SHL and SHR: the first operand names the
      register that receives the result. */
  function RunArith(op: BinaryOp, s: Source, m: Machine): Result<Machine> {
    var ops :- AluOperands(s, m);
    WriteResult(m.(pc := m.pc + 2), ops.0, Binary(op, ops.1, ops.2))
  }

  /** CMP: the flags of the subtraction, no register written. */
  function RunCmp(s: Source, m: Machine): Result<Machine> {
    var ops :- AluOperands(s, m);
    Ok(Flags(m, Binary(Sub, ops.1, ops.2)).(pc := m.pc + 3))
  }

  /** `add(x, 1)` for INC, `sub(x, 1)` for DEC, `not(x, 0)` for NOT. */
  function UnaryResult(i: Instr, x: byte): AluResult
    requires i == IncReg || i == DecReg || i == NotReg
  {
    if i == IncReg then Binary(Add, x, 1) else if i == DecReg then Binary(Sub, x, 1) else Not(x)
  }

  /** INC, DEC and NOT on the register the operand names. */
  function RunUnary(i: Instr, m: Machine): Result<Machine>
    requires i == IncReg || i == DecReg || i == NotReg
  {
    var r :- Operand(m, 1);
    var x :- Register(m, r);
    WriteResult(m.(pc := m.pc + 1), r, UnaryResult(i, x))
  }

  /** A jump goes to its destination when its condition holds and otherwise
      continues with the next instruction, two bytes on. */
  function RunJump(c: Condition, t: Target, m: Machine): Result<Machine> {
    var target :- SingleOperand(TargetSource(t), m);
    Ok(m.(pc := if Taken(c, m.carry, m.zero) then target else m.pc + 2))
  }

  /** The not-taken branch as the CPU writes it, `this.pc = this.pc++`: the
      post-increment's value is the PC before the increment, which
      fetch_addr_operand has left on the operand byte. */
  function RunJumpAsWritten(c: Condition, t: Target, m: Machine): Result<Machine> {
    var target :- SingleOperand(TargetSource(t), m);
    Ok(m.(pc := if Taken(c, m.carry, m.zero) then target else m.pc + 1))
  }

  /** CALL pushes the address of the next instruction and jumps. */
  function RunCall(t: Target, m: Machine): Result<Machine> {
    var target :- SingleOperand(TargetSource(t), m);
    CallFrom(m.(pc := m.pc + 1), target)
  }

  /** The push and the jump of CALL, with PC on the operand. */
  function CallFrom(m: Machine, target: byte): Result<Machine> {
    var pushed :- PushNext(m);
    Ok(pushed.(pc := target))
  }

  /** RET pops the return address into PC. */
  function RunRet(m: Machine): Result<Machine> {
    var v :- ReadCell(m.cells, m.sp + 1);
    Ok(m.(sp := m.sp + 1, pc := v))
  }

  /** PUSH writes its value at SP and moves SP down. */
  function RunPush(s: Source, m: Machine): Result<Machine> {
    var v :- SingleOperand(s, m);
    PushValue(m.(pc := m.pc + 1), v)
  }

  /** The store of PUSH, with PC on the operand. */
  function PushValue(m: Machine, v: byte): Result<Machine> {
    var pushed :- StoreCell(m.(sp := m.sp - 1), m.sp, v);
    Ok(pushed.(pc := m.pc + 1))
  }

  /** POP moves SP up and reads the cell there into a register. */
  function RunPop(m: Machine): Result<Machine> {
    var r :- Operand(m, 1);
    var v :- ReadCell(m.cells, m.sp + 1);
    var popped :- StoreRegister(m.(sp := m.sp + 1, pc := m.pc + 1), r, v);
    Ok(popped.(pc := m.pc + 2))
  }

  /** The state after one instruction form. */
  function Run(i: Instr, m: Machine): Result<Machine> {
    match i
    case Halt => Ok(m.(halt := true))
    case Mov(f) => RunMov(f, m)
    case Arith(op, s) => RunArith(op, s, m)
    case Cmp(s) => RunCmp(s, m)
    case IncReg => RunUnary(i, m)
    case DecReg => RunUnary(i, m)
    case NotReg => RunUnary(i, m)
    case Jump(c, t) => RunJump(c, t, m)
    case Call(t) => RunCall(t, m)
    case Ret => RunRet(m)
    case Push(s) => RunPush(s, m)
    case PopReg => RunPop(m)
  }

  /** `fetch`: IR receives the opcode at PC; PC stays. */
  function FetchSpec(m: Machine): Result<Machine> {
    var v :- ReadCell(m.cells, m.pc);
    Ok(m.(ir := v))
  }

  /** `execute`: the instruction IR holds, and whether the machine runs on
      (false only after HLT). An opcode without a case is an error. */
  function Step(m: Machine): Result<(Machine, bool)> {
    match Decode(m.ir)
    case None => Err(InvalidOpcode(m.ir))
    case Some(i) =>
      var next :- Run(i, m);
      Ok((next, i != Halt))
  }

  // ---------------------------------------------------------------------
  // The processor object.

  class Cpu {
    var pc: int
    var sp: int
    var mar: int
    var mbr: int
    var ir: int
    /** The four general-purpose registers, a fixed byte buffer. */
    const gpr: array<byte>
    var zero: bool
    var carry: bool
    var overflow: bool
    var negative: bool
    var halt: bool
    const memory: Memory

    ghost predicate Valid() {
      gpr.Length == RegisterCount && memory.Valid() && gpr != memory.data
    }

    function State(): Machine
      reads this, gpr, memory.data
    {
      Machine(pc, sp, ir, gpr[..], zero, carry, overflow, negative, halt, memory.Cells())
    }

    constructor(ram: Memory)
      requires ram.Valid()
      ensures Valid() && memory == ram && fresh(gpr)
      ensures State() == PowerOn(ram.Cells()) && mar == 0 && mbr == 0
    {
      memory := ram;
      gpr := new byte[RegisterCount](_ => 0);
      pc := 0;
      sp := MaxSP;
      mar := 0;
      mbr := 0;
      ir := 0;
      zero := false;
      carry := false;
      overflow := false;
      negative := false;
      halt := false;
      new;
      assert gpr[..] == [0, 0, 0, 0];
    }

    /** `reset`: registers and flags back to their power-on values; memory
        is not touched. */
    method Reset()
      requires Valid()
      modifies this, gpr
      ensures State() == PowerOn(old(State()).cells) && mar == 0 && mbr == 0
    {
      gpr[0] := 0;
      gpr[1] := 0;
      gpr[2] := 0;
      gpr[3] := 0;
      pc := 0;
      sp := MaxSP;
      mar := 0;
      mbr := 0;
      ir := 0;
      zero := false;
      carry := false;
      overflow := false;
      negative := false;
      halt := false;
      assert gpr[..] == [0, 0, 0, 0];
    }

    /** `fetch`: MAR ← PC, MBR ← M[MAR], IR ← MBR. */
    method Fetch() returns (o: Outcome)
      requires Valid()
      modifies this
      ensures FetchSpec(old(State())) == if o.Pass? then Ok(State()) else Err(o.error)
      ensures o.Pass? ==> mar == pc && mbr == ir
    {
      mar := pc;
      var v := memory.Read(mar);
      if v.Err? {
        return Fail(v.error);
      }
      mbr := v.value;
      ir := mbr;
      return Pass;
    }

    /** `fetch_addr_operand`: PC ← PC + 1, MAR ← PC, MBR ← M[MAR]. */
    method FetchAddrOperand() returns (o: Outcome)
      requires Valid()
      modifies this
      ensures State() == old(State()).(pc := old(pc) + 1) && mar == pc
      ensures ReadCell(memory.Cells(), pc) == if o.Pass? then Ok(mbr) else Err(o.error)
    {
      pc := pc + 1;
      mar := pc;
      var v := memory.Read(mar);
      if v.Err? {
        return Fail(v.error);
      }
      mbr := v.value;
      return Pass;
    }

    /** `fetch_memory`: MAR ← MBR, MBR ← M[MAR]. MBR holds a byte here, so
        the read stays inside memory. */
    method FetchMemory()
      requires Valid() && 0 <= mbr < 256
      modifies this
      ensures State() == old(State())
      ensures ReadCell(memory.Cells(), old(mbr)) == Ok(mbr)
    {
      mar := mbr;
      var v := memory.Read(mar);
      mbr := v.value;
    }

    /** `fetch_memory_from`: MAR ← GPR[MBR], MBR ← M[MAR]. */
    method FetchMemoryFrom() returns (o: Outcome)
      requires Valid() && 0 <= mbr < 256
      modifies this
      ensures State() == old(State())
      ensures SourceValue(State(), RegAddr, old(mbr)) == if o.Pass? then Ok(mbr) else Err(o.error)
    {
      if mbr >= gpr.Length {
        return Fail(BadRegister(mbr));
      }
      mar := gpr[mbr];
      // a register holds a byte, so the read stays inside memory
      var v := memory.Read(mar);
      mbr := v.value;
      return Pass;
    }

    /** `push_to_stack`: MAR ← SP, SP ← SP − 1, PC ← PC + 1, MBR ← PC,
        M[MAR] ← MBR. */
    method PushToStack() returns (o: Outcome)
      requires Valid()
      modifies this, memory.data
      ensures PushNext(old(State())) == if o.Pass? then Ok(State()) else Err(o.error)
    {
      mar := sp;
      sp := sp - 1;
      pc := pc + 1;
      mbr := pc;
      o := memory.Write(mar, mbr);
    }

    /** `perform_operation` once the ALU has produced `result`: zero,
        overflow and negative are copied from it and its sum is returned. */
    method PerformOperation(result: AluResult) returns (sum: byte)
      requires Valid()
      modifies this
      ensures State() == Flags(old(State()), result) && sum == result.sum
      ensures mbr == old(mbr)
    {
      zero := result.isZero;
      overflow := result.isOverflow;
      negative := result.isNegative;
      sum := result.sum;
    }

    /** `gpr[r]`, for a register the operand names. */
    method ReadRegister(r: int) returns (v: Result<byte>)
      requires Valid()
      ensures v == Register(State(), r)
    {
      if 0 <= r < gpr.Length {
        v := Ok(gpr[r]);
      } else {
        v := Err(BadRegister(r));
      }
    }

    /** `gpr[r] = v`. */
    method WriteRegister(r: int, v: byte) returns (o: Outcome)
      requires Valid()
      modifies gpr
      ensures StoreRegister(old(State()), r, v) == if o.Pass? then Ok(State()) else Err(o.error)
    {
      if 0 <= r < gpr.Length {
        gpr[r] := v;
        o := Pass;
      } else {
        o := Fail(BadRegister(r));
      }
    }

    /** `memory.write(a, v)`. */
    method Store(a: int, v: int) returns (o: Outcome)
      requires Valid()
      modifies memory.data
      ensures StoreCell(old(State()), a, v) == if o.Pass? then Ok(State()) else Err(o.error)
    {
      o := memory.Write(a, v);
    }

    /** The value of the operand MBR holds, read through s: a register,
        `fetch_memory`, `fetch_memory_from`, or the number itself. */
    method FetchSource(s: Source) returns (v: Result<byte>)
      requires Valid() && 0 <= mbr < 256
      modifies this
      ensures State() == old(State())
      ensures v == SourceValue(State(), s, old(mbr))
    {
      match s {
        case Reg =>
          v := ReadRegister(mbr);
        case Addr =>
          FetchMemory();
          v := Ok(mbr);
        case RegAddr =>
          var o := FetchMemoryFrom();
          v := if o.Pass? then Ok(mbr) else Err(o.error);
        case Num =>
          v := Ok(mbr);
      }
    }

    /** `fetch_addr_operand`, then the value the operand denotes. */
    method FetchSingle(s: Source) returns (v: Result<byte>)
      requires Valid()
      modifies this
      ensures v == SingleOperand(s, old(State()))
      ensures v.Ok? ==> State() == old(State()).(pc := old(pc) + 1)
    {
      var o := FetchAddrOperand();
      if o.Fail? {
        return Err(o.error);
      }
      v := FetchSource(s);
    }

    /** The two operand fetches that open a two-operand instruction: TEMP
        receives the first operand byte, and the second is read through s. */
    method FetchLoad(s: Source) returns (r: Result<(byte, byte)>)
      requires Valid()
      modifies this
      ensures r == LoadOperands(s, old(State()))
      ensures r.Ok? ==> State() == old(State()).(pc := old(pc) + 2)
    {
      var o := FetchAddrOperand();
      if o.Fail? {
        return Err(o.error);
      }
      var temp1: byte := mbr;
      var v := FetchSingle(s);
      if v.Err? {
        return Err(v.error);
      }
      r := Ok((temp1, v.value));
    }

    /** The operands of ADD, SUBT, AND, OR, XOR, SHL, SHR and CMP, with the
        destination register's value. */
    method FetchAlu(s: Source) returns (r: Result<(byte, byte, byte)>)
      requires Valid()
      modifies this
      ensures r == AluOperands(s, old(State()))
      ensures r.Ok? ==> State() == old(State()).(pc := old(pc) + 2)
    {
      var dv := FetchLoad(s);
      if dv.Err? {
        return Err(dv.error);
      }
      var x := ReadRegister(dv.value.0);
      if x.Err? {
        return Err(x.error);
      }
      r := Ok((dv.value.0, x.value, dv.value.1));
    }

    /** The operand fetches of the MOV forms into memory. */
    method FetchStore(f: MovForm) returns (r: Result<(int, byte)>)
      requires Valid() && StoresToMemory(f)
      modifies this
      ensures r == StoreOperands(f, old(State()))
      ensures r.Ok? ==> State() == old(State()).(pc := old(pc) + 2)
    {
      if f == RegToAddr || f == RegToRegAddr {
        r := FetchStoreRegister(f);
      } else {
        r := FetchStoreNumber(f);
      }
    }

    /** REG_TO_ADDR and REG_TO_REGADDR: the value comes from a register. */
    method FetchStoreRegister(f: MovForm) returns (r: Result<(int, byte)>)
      requires Valid() && (f == RegToAddr || f == RegToRegAddr)
      modifies this
      ensures r == StoreOperands(f, old(State()))
      ensures r.Ok? ==> State() == old(State()).(pc := old(pc) + 2)
    {
      var o := FetchAddrOperand();
      if o.Fail? {
        return Err(o.error);
      }
      var temp1: int := mbr;
      if f == RegToRegAddr {
        mar := mbr;
        var a := ReadRegister(mar);
        if a.Err? {
          return Err(a.error);
        }
        mbr := a.value;
        temp1 := mbr;
      }
      var v := FetchSingle(Reg);
      if v.Err? {
        return Err(v.error);
      }
      r := Ok((temp1, v.value));
    }

    /** NUM_TO_ADDR and NUM_TO_REGADDR: the value is the second operand. */
    method FetchStoreNumber(f: MovForm) returns (r: Result<(int, byte)>)
      requires Valid() && (f == NumToAddr || f == NumToRegAddr)
      modifies this
      ensures r == StoreOperands(f, old(State()))
      ensures r.Ok? ==> State() == old(State()).(pc := old(pc) + 2)
    {
      var o := FetchAddrOperand();
      if o.Fail? {
        return Err(o.error);
      }
      var temp1: int := mbr;
      o := FetchAddrOperand();
      if o.Fail? {
        return Err(o.error);
      }
      if f == NumToRegAddr {
        var a := ReadRegister(temp1);
        if a.Err? {
          return Err(a.error);
        }
        temp1 := a.value;
      }
      r := Ok((temp1, mbr));
    }

    /** The tail of an ALU instruction that writes back: the flags from
        `result`, its sum into register d, and PC ← PC + 1. */
    method WriteBack(d: int, result: AluResult) returns (o: Outcome)
      requires Valid()
      modifies this, gpr
      ensures WriteResult(old(State()), d, result) == if o.Pass? then Ok(State()) else Err(o.error)
    {
      var sum := PerformOperation(result);
      o := WriteRegister(d, sum);
      if o.Fail? {
        return;
      }
      pc := pc + 1;
    }

    /** The eight MOV opcodes. */
    method ExecuteMov(f: MovForm) returns (o: Outcome)
      requires Valid()
      modifies this, gpr, memory.data
      ensures RunMov(f, old(State())) == if o.Pass? then Ok(State()) else Err(o.error)
    {
      if StoresToMemory(f) {
        o := ExecuteMovToMemory(f);
      } else {
        o := ExecuteMovToRegister(f);
      }
    }

    /** The MOV forms with a memory destination. */
    method ExecuteMovToMemory(f: MovForm) returns (o: Outcome)
      requires Valid() && StoresToMemory(f)
      modifies this, memory.data
      ensures MovToMemory(f, old(State())) == if o.Pass? then Ok(State()) else Err(o.error)
    {
      var av := FetchStore(f);
      if av.Err? {
        return Fail(av.error);
      }
      mar := av.value.0;
      o := Store(mar, av.value.1);
      if o.Fail? {
        return;
      }
      pc := pc + 1;
    }

    /** The MOV forms with a register destination. */
    method ExecuteMovToRegister(f: MovForm) returns (o: Outcome)
      requires Valid()
      modifies this, gpr
      ensures MovToRegister(f, old(State())) == if o.Pass? then Ok(State()) else Err(o.error)
    {
      var dv := FetchLoad(LoadSource(f));
      if dv.Err? {
        return Fail(dv.error);
      }
      o := WriteRegister(dv.value.0, dv.value.1);
      if o.Fail? {
        return;
      }
      pc := pc + 1;
    }

    /** ADD, SUBT, AND, OR, XOR, SHL and SHR into the register the first
        operand names. */
    method ExecuteArith(op: BinaryOp, s: Source) returns (o: Outcome)
      requires Valid()
      modifies this, gpr
      ensures RunArith(op, s, old(State())) == if o.Pass? then Ok(State()) else Err(o.error)
    {
      var ops := FetchAlu(s);
      if ops.Err? {
        return Fail(ops.error);
      }
      o := WriteBack(ops.value.0, Binary(op, ops.value.1, ops.value.2));
    }

    /** CMP: a subtraction for its flags only. */
    method ExecuteCmp(s: Source) returns (o: Outcome)
      requires Valid()
      modifies this
      ensures RunCmp(s, old(State())) == if o.Pass? then Ok(State()) else Err(o.error)
    {
      var ops := FetchAlu(s);
      if ops.Err? {
        return Fail(ops.error);
      }
      var _ := PerformOperation(Binary(Sub, ops.value.1, ops.value.2));
      pc := pc + 1;
      o := Pass;
    }

    /** INC, DEC and NOT on the register the operand names. */
    method ExecuteUnary(i: Instr) returns (o: Outcome)
      requires Valid() && (i == IncReg || i == DecReg || i == NotReg)
      modifies this, gpr
      ensures RunUnary(i, old(State())) == if o.Pass? then Ok(State()) else Err(o.error)
    {
      o := FetchAddrOperand();
      if o.Fail? {
        return;
      }
      var x := ReadRegister(mbr);
      if x.Err? {
        return Fail(x.error);
      }
      o := WriteBack(mbr, UnaryResult(i, x.value));
    }

    /** JMP and the conditional jumps. */
    method ExecuteJump(c: Condition, t: Target) returns (o: Outcome)
      requires Valid()
      modifies this
      ensures RunJump(c, t, old(State())) == if o.Pass? then Ok(State()) else Err(o.error)
    {
      var taken := Taken(c, carry, zero);
      var target := FetchSingle(TargetSource(t));
      if target.Err? {
        return Fail(target.error);
      }
      pc := if taken then target.value else pc + 1;
      o := Pass;
    }

    /** CALL: push the return address, then jump. */
    method ExecuteCall(t: Target) returns (o: Outcome)
      requires Valid()
      modifies this, memory.data
      ensures RunCall(t, old(State())) == if o.Pass? then Ok(State()) else Err(o.error)
    {
      var target := FetchSingle(TargetSource(t));
      if target.Err? {
        return Fail(target.error);
      }
      o := CallTo(target.value);
    }

    /** The tail of CALL: TEMP holds the destination; push, then PC ← TEMP. */
    method CallTo(temp1: byte) returns (o: Outcome)
      requires Valid()
      modifies this, memory.data
      ensures CallFrom(old(State()), temp1) == if o.Pass? then Ok(State()) else Err(o.error)
    {
      o := PushToStack();
      if o.Fail? {
        return;
      }
      pc := temp1;
    }

    /** RET: MAR ← SP + 1, PC ← M[MAR]. */
    method ExecuteRet() returns (o: Outcome)
      requires Valid()
      modifies this
      ensures RunRet(old(State())) == if o.Pass? then Ok(State()) else Err(o.error)
    {
      sp := sp + 1;
      mar := sp;
      var v := memory.Read(mar);
      if v.Err? {
        return Fail(v.error);
      }
      mbr := v.value;
      pc := mbr;
      o := Pass;
    }

    /** PUSH: MAR ← SP, SP ← SP − 1, M[MAR] ← value. */
    method ExecutePush(s: Source) returns (o: Outcome)
      requires Valid()
      modifies this, memory.data
      ensures RunPush(s, old(State())) == if o.Pass? then Ok(State()) else Err(o.error)
    {
      var v := FetchSingle(s);
      if v.Err? {
        return Fail(v.error);
      }
      o := PushByte(v.value);
    }

    /** The tail of PUSH: MAR ← SP, SP ← SP − 1, M[MAR] ← v, PC ← PC + 1. */
    method PushByte(v: byte) returns (o: Outcome)
      requires Valid()
      modifies this, memory.data
      ensures PushValue(old(State()), v) == if o.Pass? then Ok(State()) else Err(o.error)
    {
      mar := sp;
      sp := sp - 1;
      o := Store(mar, v);
      if o.Fail? {
        return;
      }
      pc := pc + 1;
    }

    /** POP: SP ← SP + 1, MAR ← SP, register ← M[MAR]. */
    method ExecutePop() returns (o: Outcome)
      requires Valid()
      modifies this, gpr
      ensures RunPop(old(State())) == if o.Pass? then Ok(State()) else Err(o.error)
    {
      o := FetchAddrOperand();
      if o.Fail? {
        return;
      }
      var temp1 := mbr;
      sp := sp + 1;
      mar := sp;
      var v := memory.Read(mar);
      if v.Err? {
        return Fail(v.error);
      }
      mbr := v.value;
      o := WriteRegister(temp1, mbr);
      if o.Fail? {
        return;
      }
      pc := pc + 1;
    }

    /** `execute`: perform the instruction in IR. The answer is whether the
        machine runs on; an opcode with no case is an error. */
    method Execute() returns (r: Result<bool>)
      requires Valid()
      modifies this, gpr, memory.data
      ensures r.Ok? ==> Step(old(State())) == Ok((State(), r.value))
      ensures r.Err? ==> Step(old(State())) == Err(r.error)
    {
      var d := Decode(ir);
      if d.None? {
        return Err(InvalidOpcode(ir));
      }
      var o: Outcome;
      match d.value {
        case Halt =>
          halt := true;
          return Ok(false);
        case Mov(f) =>
          o := ExecuteMov(f);
        case Arith(op, s) =>
          o := ExecuteArith(op, s);
        case Cmp(s) =>
          o := ExecuteCmp(s);
        case IncReg =>
          o := ExecuteUnary(IncReg);
        case DecReg =>
          o := ExecuteUnary(DecReg);
        case NotReg =>
          o := ExecuteUnary(NotReg);
        case Jump(c, t) =>
          o := ExecuteJump(c, t);
        case Call(t) =>
          o := ExecuteCall(t);
        case Ret =>
          o := ExecuteRet();
        case Push(s) =>
          o := ExecutePush(s);
        case PopReg =>
          o := ExecutePop();
      }
      if o.Fail? {
        return Err(o.error);
      }
      return Ok(true);
    }
  }

  // ---------------------------------------------------------------------
  // What one instruction does to the machine.

  /** A MOV into a register copies its source into the register the first
      operand names; flags, SP and memory are untouched and PC moves past
      the three bytes. */
  lemma MovToRegisterEffect(f: MovForm, m: Machine)
    requires !StoresToMemory(f) && RunMov(f, m).Ok?
    ensures 0 <= m.pc + 1 && m.pc + 2 < |m.cells|
    ensures m.cells[m.pc + 1] < |m.gpr| && SourceValue(m, LoadSource(f), m.cells[m.pc + 2]).Ok?
    ensures RunMov(f, m).value
         == m.(pc := m.pc + 3,
               gpr := m.gpr[m.cells[m.pc + 1] := SourceValue(m, LoadSource(f), m.cells[m.pc + 2]).value])
  {
    var p := m.pc + 1;
    var m1 := m.(pc := p);
    assert SingleOperand(LoadSource(f), m1) == SourceValue(m, LoadSource(f), m.cells[p + 1]);
  }

  /** A MOV into memory writes one cell, at the address StoreOperands
      names, and changes no register, flag or SP; PC moves past the three
      bytes. */
  lemma MovToMemoryEffect(f: MovForm, m: Machine)
    requires StoresToMemory(f) && RunMov(f, m).Ok?
    ensures StoreOperands(f, m).Ok? && 0 <= StoreOperands(f, m).value.0 < |m.cells|
    ensures RunMov(f, m).value
         == m.(pc := m.pc + 3, cells := m.cells[StoreOperands(f, m).value.0 := StoreOperands(f, m).value.1])
  {
  }

  /** ADD, SUBT, AND, OR, XOR, SHL and SHR: the destination register
      receives the ALU result of its own value and the source; zero,
      overflow and negative follow the result; carry, SP and memory are
      untouched. */
  lemma ArithEffect(op: BinaryOp, s: Source, m: Machine)
    requires RunArith(op, s, m).Ok?
    ensures AluOperands(s, m).Ok?
    ensures var ops := AluOperands(s, m).value;
      var res := Binary(op, ops.1, ops.2);
      ops.0 < |m.gpr| && ops.1 == m.gpr[ops.0] &&
      RunArith(op, s, m).value
        == m.(pc := m.pc + 3, gpr := m.gpr[ops.0 := res.sum],
              zero := res.isZero, overflow := res.isOverflow, negative := res.isNegative)
  {
  }

  /** The operands of an ALU instruction: the register the first operand
      byte names, its value, and the source the second byte denotes. */
  lemma AluOperandsMeaning(s: Source, m: Machine)
    requires AluOperands(s, m).Ok?
    ensures 0 <= m.pc + 1 && m.pc + 2 < |m.cells|
    ensures var ops := AluOperands(s, m).value;
      ops.0 == m.cells[m.pc + 1] && ops.0 < |m.gpr| && ops.1 == m.gpr[ops.0] &&
      SourceValue(m, s, m.cells[m.pc + 2]) == Ok(ops.2)
  {
    var p := m.pc + 1;
    var m1 := m.(pc := p);
    assert SingleOperand(s, m1) == SourceValue(m, s, m.cells[p + 1]);
  }

  /** CMP sets the flags of the subtraction and writes no register. */
  lemma CmpEffect(s: Source, m: Machine)
    requires RunCmp(s, m).Ok?
    ensures AluOperands(s, m).Ok?
    ensures var ops := AluOperands(s, m).value;
      var res := Binary(Sub, ops.1, ops.2);
      RunCmp(s, m).value
        == m.(pc := m.pc + 3, zero := res.isZero, overflow := res.isOverflow, negative := res.isNegative)
  {
  }

  /** INC, DEC and NOT rewrite the register their operand names with the
      ALU result and move PC past the two bytes. */
  lemma UnaryEffect(i: Instr, m: Machine)
    requires (i == IncReg || i == DecReg || i == NotReg) && RunUnary(i, m).Ok?
    ensures 0 <= m.pc + 1 < |m.cells| && m.cells[m.pc + 1] < |m.gpr|
    ensures var r := m.cells[m.pc + 1];
      var res := UnaryResult(i, m.gpr[r]);
      RunUnary(i, m).value
        == m.(pc := m.pc + 2, gpr := m.gpr[r := res.sum],
              zero := res.isZero, overflow := res.isOverflow, negative := res.isNegative)
  {
  }

  /** A jump changes only PC: to its destination when the condition holds,
      otherwise to the next instruction. */
  lemma JumpEffect(c: Condition, t: Target, m: Machine)
    requires RunJump(c, t, m).Ok?
    ensures 0 <= m.pc + 1 < |m.cells|
    ensures SourceValue(m, TargetSource(t), m.cells[m.pc + 1]).Ok?
    ensures RunJump(c, t, m).value
         == m.(pc := if Taken(c, m.carry, m.zero)
                     then SourceValue(m, TargetSource(t), m.cells[m.pc + 1]).value
                     else m.pc + Size(Jump(c, t)))
  {
  }

  /** PUSH stores its value at SP and moves SP down by one. */
  lemma PushEffect(s: Source, m: Machine)
    requires RunPush(s, m).Ok?
    ensures SingleOperand(s, m).Ok? && 0 <= m.sp < |m.cells|
    ensures RunPush(s, m).value
         == m.(pc := m.pc + 2, sp := m.sp - 1, cells := m.cells[m.sp := SingleOperand(s, m).value])
  {
  }

  /** POP moves SP up by one and loads the cell there into the register
      its operand names. */
  lemma PopEffect(m: Machine)
    requires RunPop(m).Ok?
    ensures 0 <= m.pc + 1 < |m.cells| && 0 <= m.sp + 1 < |m.cells| && m.cells[m.pc + 1] < |m.gpr|
    ensures RunPop(m).value
         == m.(pc := m.pc + 2, sp := m.sp + 1, gpr := m.gpr[m.cells[m.pc + 1] := m.cells[m.sp + 1]])
  {
  }

  /** CALL stores the address after itself at SP, moves SP down and jumps. */
  lemma CallEffect(t: Target, m: Machine)
    requires RunCall(t, m).Ok?
    ensures 0 <= m.pc + 1 < |m.cells| && 0 <= m.sp < |m.cells|
    ensures SourceValue(m, TargetSource(t), m.cells[m.pc + 1]).Ok?
    ensures RunCall(t, m).value
         == m.(pc := SourceValue(m, TargetSource(t), m.cells[m.pc + 1]).value,
               sp := m.sp - 1, cells := m.cells[m.sp := Mask8(m.pc + 2)])
  {
  }

  /** RET moves SP up by one and continues at the address stored there. */
  lemma RetEffect(m: Machine)
    requires RunRet(m).Ok?
    ensures 0 <= m.sp + 1 < |m.cells|
    ensures RunRet(m).value == m.(sp := m.sp + 1, pc := m.cells[m.sp + 1])
  {
  }

  // ---------------------------------------------------------------------
  // Properties of a whole step.

  /** The instructions after which execution continues with the next one
      in memory: everything but HLT, the jumps, CALL and RET. */
  predicate Sequential(i: Instr) {
    !(i == Halt || i.Jump? || i.Call? || i == Ret)
  }

  /** A step that succeeds is the run of the decoded instruction, and the
      machine runs on exactly when that instruction is not HLT. */
  lemma StepRuns(m: Machine)
    requires Step(m).Ok?
    ensures Decode(m.ir).Some? && Run(Decode(m.ir).value, m).Ok?
    ensures Step(m).value == (Run(Decode(m.ir).value, m).value, Decode(m.ir).value != Halt)
  {
  }

  /** How PC moves in one instruction: HLT leaves it, a sequential
      instruction moves it past its own bytes, a jump moves it to its
      destination or past itself, CALL to its destination and RET to the
      stored return address. */
  lemma {:induction false} RunPc(i: Instr, m: Machine)
    requires Run(i, m).Ok?
    ensures i == Halt ==> Run(i, m).value == m.(halt := true)
    ensures Sequential(i) ==> Run(i, m).value.pc == m.pc + Size(i)
    ensures i.Jump? && !Taken(i.cond, m.carry, m.zero) ==> Run(i, m).value.pc == m.pc + Size(i)
    ensures i.Jump? && Taken(i.cond, m.carry, m.zero) ==>
      0 <= m.pc + 1 < |m.cells| && Run(i, m).value.pc == SourceValue(m, TargetSource(i.target), m.cells[m.pc + 1]).value
    ensures i == Ret ==> 0 <= m.sp + 1 < |m.cells| && Run(i, m).value.pc == m.cells[m.sp + 1]
  {
    match i
    case Halt =>
    case Mov(f) =>
      if StoresToMemory(f) { MovToMemoryEffect(f, m); } else { MovToRegisterEffect(f, m); }
    case Arith(op, s) => ArithEffect(op, s, m);
    case Cmp(s) => CmpEffect(s, m);
    case IncReg => UnaryEffect(i, m);
    case DecReg => UnaryEffect(i, m);
    case NotReg => UnaryEffect(i, m);
    case Jump(c, t) => JumpEffect(c, t, m);
    case Call(t) =>
    case Ret => RetEffect(m);
    case Push(s) => PushEffect(s, m);
    case PopReg => PopEffect(m);
  }

  /** No instruction writes the carry flag, the instruction register or
      the halt flag (HLT aside), so the carry flag keeps its power-on
      value: the ALU never reports a carry to the CPU. */
  lemma {:induction false} RunKeeps(i: Instr, m: Machine)
    requires Run(i, m).Ok?
    ensures Run(i, m).value.carry == m.carry && Run(i, m).value.ir == m.ir
    ensures Run(i, m).value.halt == (m.halt || i == Halt)
    ensures |Run(i, m).value.gpr| == |m.gpr| && |Run(i, m).value.cells| == |m.cells|
  {
    match i
    case Halt =>
    case Mov(f) =>
      if StoresToMemory(f) { MovToMemoryEffect(f, m); } else { MovToRegisterEffect(f, m); }
    case Arith(op, s) => ArithEffect(op, s, m);
    case Cmp(s) => CmpEffect(s, m);
    case IncReg => UnaryEffect(i, m);
    case DecReg => UnaryEffect(i, m);
    case NotReg => UnaryEffect(i, m);
    case Jump(c, t) => JumpEffect(c, t, m);
    case Call(t) => CallEffect(t, m);
    case Ret => RetEffect(m);
    case Push(s) => PushEffect(s, m);
    case PopReg => PopEffect(m);
  }

  /** The errors an instruction can raise: a memory access out of range or
      a register operand outside A..D, never an invalid opcode. */
  lemma RunErrors(i: Instr, m: Machine)
    requires Run(i, m).Err?
    ensures MachineFault(Run(i, m).error)
  {
    match i
    case Halt =>
    case Mov(f) => MovErrors(f, m);
    case Arith(op, s) => AluErrors(s, m);
    case Cmp(s) => AluErrors(s, m);
    case IncReg =>
    case DecReg =>
    case NotReg =>
    case Jump(c, t) =>
    case Call(t) =>
    case Ret =>
    case Push(s) =>
    case PopReg =>
  }

  /** The faults of the register transfers. */
  predicate MachineFault(e: Error) {
    e.AccessViolation? || e.BadRegister?
  }

  lemma MovErrors(f: MovForm, m: Machine)
    requires RunMov(f, m).Err?
    ensures MachineFault(RunMov(f, m).error)
  {
    if StoresToMemory(f) {
      assert StoreOperands(f, m).Err? ==> MachineFault(StoreOperands(f, m).error);
    }
  }

  lemma AluErrors(s: Source, m: Machine)
    ensures AluOperands(s, m).Err? ==> MachineFault(AluOperands(s, m).error)
  {
  }

  /** `execute` throws "Invalid op code" exactly for the codes without a
      case: those outside 0x00-0x24 and 0x2F-0x4B. */
  lemma InvalidOpcodes(m: Machine)
    ensures Step(m) == Err(InvalidOpcode(m.ir)) <==> !(0x00 <= m.ir <= 0x24 || 0x2F <= m.ir <= 0x4B)
  {
    AssignedCodes(m.ir);
    if Decode(m.ir).Some? {
      var i := Decode(m.ir).value;
      if Run(i, m).Err? {
        RunErrors(i, m);
      }
    }
  }

  /** HLT sets the halt flag and stops the machine; nothing else changes,
      PC included. */
  lemma HaltStops(m: Machine)
    requires m.ir == NONE
    ensures Step(m) == Ok((m.(halt := true), false))
  {
  }

  /** After a successful step PC is where RunPc says, the machine runs on
      unless it executed HLT, and carry and IR are as before. */
  lemma StepPc(m: Machine)
    requires Step(m).Ok?
    ensures Decode(m.ir).Some?
    ensures var i := Decode(m.ir).value; var next := Step(m).value.0;
      Step(m).value.1 == (i != Halt) &&
      next.carry == m.carry && next.ir == m.ir &&
      (i == Halt ==> next.pc == m.pc) &&
      (Sequential(i) ==> next.pc == m.pc + Size(i)) &&
      (i.Jump? && !Taken(i.cond, m.carry, m.zero) ==> next.pc == m.pc + Size(i))
  {
    StepRuns(m);
    var i := Decode(m.ir).value;
    RunPc(i, m);
    RunKeeps(i, m);
  }

  /** JA and JNA are not complements of each other: with the zero flag set
      and the carry flag clear neither jumps, and both continue past
      themselves. */
  lemma AboveGap(t: Target, m: Machine)
    requires m.zero && !m.carry && RunJump(Above, t, m).Ok?
    ensures RunJump(NotAbove, t, m).Ok?
    ensures RunJump(Above, t, m).value.pc == m.pc + 2 == RunJump(NotAbove, t, m).value.pc
  {
  }

  /** A CALL followed, once the subroutine has left the stack as the CALL
      left it, by a RET resumes after the CALL's two bytes with SP back
      where it was. The return address is stored as a byte, so a CALL at
      254 or 255 returns to 0 or 1. */
  lemma CallThenRet(t: Target, m: Machine, k: Machine)
    requires RunCall(t, m).Ok?
    requires k.sp == RunCall(t, m).value.sp
    requires 0 <= k.sp + 1 < |k.cells| && k.cells[k.sp + 1] == RunCall(t, m).value.cells[k.sp + 1]
    ensures RunRet(k).Ok?
    ensures RunRet(k).value.pc == (m.pc + 2) % 256 && RunRet(k).value.sp == m.sp
  {
    CallEffect(t, m);
    RetEffect(k);
  }

  /** A POP right after a PUSH loads the pushed value into its register and
      restores SP; memory is as the PUSH left it. */
  lemma PushThenPop(s: Source, m: Machine)
    requires RunPush(s, m).Ok? && RunPop(RunPush(s, m).value).Ok?
    ensures var p := RunPush(s, m).value; var n := RunPop(p).value;
      n.sp == m.sp && n.gpr[p.cells[p.pc + 1]] == SingleOperand(s, m).value &&
      n.cells == p.cells && n.pc == m.pc + 4
  {
    PushEffect(s, m);
    var p := RunPush(s, m).value;
    PopEffect(p);
  }

  /** The not-taken jump as written leaves PC on the operand byte, one
      short of the next instruction, where the corrected jump goes. */
  lemma JumpAsWrittenFallsShort(c: Condition, t: Target, m: Machine)
    requires RunJumpAsWritten(c, t, m).Ok? && !Taken(c, m.carry, m.zero)
    ensures RunJump(c, t, m).Ok?
    ensures RunJumpAsWritten(c, t, m).value.pc == m.pc + 1
    ensures RunJump(c, t, m).value.pc == m.pc + Size(Jump(c, t))
  {
  }

  /** JC at address 0 with the carry flag clear: as written PC ends at 1,
      the operand byte; the next instruction is at 2. */
  lemma JumpNotTakenExample()
    ensures var m := PowerOn([JC_ADDR, 7, NONE]).(ir := JC_ADDR);
      RunJumpAsWritten(Carry, Direct, m) == Ok(m.(pc := 1)) &&
      RunJump(Carry, Direct, m) == Ok(m.(pc := 2))
  {
  }
}
