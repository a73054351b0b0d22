/** The two-pass assembler. The first pass reads the source line by line,
    binds each label to the current code length, picks the opcode from the
    mnemonic and the kinds of its operands and appends the opcode and the
    operand bytes; a reference to a label is kept as its name. The second
    pass replaces every name with the label's offset. */
module Assembler {
  import opened Base
  import opened Alu
  import opened Opcodes
  import opened InstructionSet
  import opened Lexer
  import opened Operands

  // ---------------------------------------------------------------------
  // Splitting the source into lines.

  /** The position of the first line feed at or after i, or |s|. */
  function LineEnd(s: string, i: nat): (e: nat)
    requires i <= |s|
    ensures i <= e <= |s|
    ensures forall k :: i <= k < e ==> s[k] != '\n'
    ensures e < |s| ==> s[e] == '\n'
    decreases |s| - i
  {
    if i == |s| || s[i] == '\n' then i else LineEnd(s, i + 1)
  }

  /** `src.split('\n')`: the pieces between line feeds; an empty source is
      one empty line. */
  function SplitLines(s: string): (lines: seq<string>)
    ensures |lines| >= 1
    decreases |s|
  {
    var e := LineEnd(s, 0);
    if e == |s| then [s] else [s[..e]] + SplitLines(s[e + 1..])
  }

  /** The inverse of splitting: the lines joined by line feeds. */
  function JoinLines(lines: seq<string>): string
    requires |lines| >= 1
  {
    if |lines| == 1 then lines[0] else lines[0] + "\n" + JoinLines(lines[1..])
  }

  /** Splitting loses nothing: joining the lines gives the source back. */
  lemma {:induction false} JoinSplit(s: string)
    ensures JoinLines(SplitLines(s)) == s
    decreases |s|
  {
    var e := LineEnd(s, 0);
    if e < |s| {
      var head := s[..e];
      var rest := s[e + 1..];
      var lines := SplitLines(s);
      JoinSplit(rest);
      assert lines == [head] + SplitLines(rest);
      assert lines[0] == head && lines[1..] == SplitLines(rest);
      assert JoinLines(lines) == head + "\n" + JoinLines(SplitLines(rest));
      assert s == head + "\n" + rest;
    }
  }

  /** No line of a split holds a line feed. */
  lemma {:induction false} SplitHasNoFeeds(s: string)
    ensures forall k :: 0 <= k < |SplitLines(s)| ==> '\n' !in SplitLines(s)[k]
    decreases |s|
  {
    var e := LineEnd(s, 0);
    if e < |s| {
      var rest := s[e + 1..];
      SplitHasNoFeeds(rest);
      forall k | 0 <= k < |SplitLines(s)|
        ensures '\n' !in SplitLines(s)[k]
      {
        if k > 0 {
          assert SplitLines(s)[k] == SplitLines(rest)[k - 1];
        }
      }
    }
  }

  /** Lines without line feeds are recovered from their join. */
  lemma {:induction false} SplitJoin(lines: seq<string>)
    requires |lines| >= 1
    requires forall k :: 0 <= k < |lines| ==> '\n' !in lines[k]
    ensures SplitLines(JoinLines(lines)) == lines
    decreases |lines|
  {
    var s := JoinLines(lines);
    var h := lines[0];
    if |lines| == 1 {
      assert LineEnd(s, 0) == |s|;
    } else {
      SplitJoin(lines[1..]);
      assert LineEnd(s, 0) == |h| by {
        assert s == h + "\n" + JoinLines(lines[1..]);
        assert s[|h|] == '\n';
        assert forall k :: 0 <= k < |h| ==> s[k] == h[k];
      }
      assert s[..|h|] == h && s[|h| + 1..] == JoinLines(lines[1..]);
      assert lines == [h] + lines[1..];
    }
  }

  // ---------------------------------------------------------------------
  // Opcode selection.

  /** The source an operand of this kind names, for the kinds an
      arithmetic, compare or push instruction accepts. */
  function SourceOf(k: Kind): Option<Source> {
    match k
    case Register => Some(Reg)
    case Address => Some(Addr)
    case RegAddress => Some(RegAddr)
    case Number => Some(Num)
    case _ => None
  }

  function KindOf(s: Source): Kind {
    match s
    case Reg => Register
    case Addr => Address
    case RegAddr => RegAddress
    case Num => Number
  }

  /** MOV's eight operand combinations, destination first. */
  function MovFormOf(k1: Kind, k2: Kind): Option<MovForm> {
    if k1 == Register && k2 == Register then Some(RegToReg)
    else if k1 == Register && k2 == Address then Some(AddrToReg)
    else if k1 == Register && k2 == RegAddress then Some(RegAddrToReg)
    else if k1 == Address && k2 == Register then Some(RegToAddr)
    else if k1 == RegAddress && k2 == Register then Some(RegToRegAddr)
    else if k1 == Register && k2 == Number then Some(NumToReg)
    else if k1 == Address && k2 == Number then Some(NumToAddr)
    else if k1 == RegAddress && k2 == Number then Some(NumToRegAddr)
    else None
  }

  function MovKinds(f: MovForm): (Kind, Kind) {
    match f
    case RegToReg => (Register, Register)
    case AddrToReg => (Register, Address)
    case RegAddrToReg => (Register, RegAddress)
    case RegToAddr => (Address, Register)
    case RegToRegAddr => (RegAddress, Register)
    case NumToReg => (Register, Number)
    case NumToAddr => (Address, Number)
    case NumToRegAddr => (RegAddress, Number)
  }

  function ArithMnemonic(op: BinaryOp): string {
    match op
    case Add => "ADD"
    case Sub => "SUBT"
    case And => "AND"
    case Or => "OR"
    case Xor => "XOR"
    case Shl => "SHL"
    case Shr => "SHR"
  }

  function ArithOf(keyword: string): Option<BinaryOp> {
    if keyword == "ADD" then Some(Add)
    else if keyword == "SUBT" then Some(Sub)
    else if keyword == "AND" then Some(And)
    else if keyword == "OR" then Some(Or)
    else if keyword == "XOR" then Some(Xor)
    else if keyword == "SHL" then Some(Shl)
    else if keyword == "SHR" then Some(Shr)
    else None
  }

  function JumpMnemonic(c: Condition): string {
    match c
    case Always => "JMP"
    case Carry => "JC"
    case NoCarry => "JNC"
    case Zero => "JZ"
    case NotZero => "JNZ"
    case Above => "JA"
    case NotAbove => "JNA"
  }

  function JumpOf(keyword: string): Option<Condition> {
    if keyword == "JMP" then Some(Always)
    else if keyword == "JC" then Some(Carry)
    else if keyword == "JNC" then Some(NoCarry)
    else if keyword == "JZ" then Some(Zero)
    else if keyword == "JNZ" then Some(NotZero)
    else if keyword == "JA" then Some(Above)
    else if keyword == "JNA" then Some(NotAbove)
    else None
  }

  /** A jump or call target: a number (a literal or a label) is the address
      itself, a bracketed register holds it. */
  function TargetOf(k: Kind): Option<Target> {
    if k == Number then Some(Direct) else if k == RegAddress then Some(Indirect) else None
  }

  function TargetKind(t: Target): Kind {
    if t == Direct then Number else RegAddress
  }

  /** The single-register instructions. */
  function RegisterOnly(keyword: string): Option<Instr> {
    if keyword == "INC" then Some(IncReg)
    else if keyword == "DEC" then Some(DecReg)
    else if keyword == "POP" then Some(PopReg)
    else if keyword == "NOT" then Some(NotReg)
    else None
  }

  /** The assembler's switch on the upper-case mnemonic: the instruction form
      for the operand kinds, an unsupported-operands error for any other
      kinds, and an invalid-instruction error for a mnemonic with no case
      (MUL, DIV and every unknown word). DB is handled by EmitInstruction. */
  function SelectInstr(keyword: string, k1: Option<Kind>, k2: Option<Kind>): Result<Instr> {
    if keyword == "HLT" then Ok(Halt)
    else if keyword == "RET" then Ok(Ret)
    else if keyword == "MOV" then
      if k1.Some? && k2.Some? && MovFormOf(k1.value, k2.value).Some? then Ok(Mov(MovFormOf(k1.value, k2.value).value))
      else Err(UnsupportedOperands(keyword))
    else if ArithOf(keyword).Some? then
      if k1 == Some(Register) && k2.Some? && SourceOf(k2.value).Some? then Ok(Arith(ArithOf(keyword).value, SourceOf(k2.value).value))
      else Err(UnsupportedOperands(keyword))
    else if keyword == "CMP" then
      if k1 == Some(Register) && k2.Some? && SourceOf(k2.value).Some? then Ok(Cmp(SourceOf(k2.value).value))
      else Err(UnsupportedOperands(keyword))
    else if RegisterOnly(keyword).Some? then
      if k1 == Some(Register) then Ok(RegisterOnly(keyword).value) else Err(UnsupportedOperands(keyword))
    else if JumpOf(keyword).Some? then
      if k1.Some? && TargetOf(k1.value).Some? then Ok(Jump(JumpOf(keyword).value, TargetOf(k1.value).value))
      else Err(UnsupportedOperands(keyword))
    else if keyword == "CALL" then
      if k1.Some? && TargetOf(k1.value).Some? then Ok(Call(TargetOf(k1.value).value))
      else Err(UnsupportedOperands(keyword))
    else if keyword == "PUSH" then
      if k1.Some? && SourceOf(k1.value).Some? then Ok(Push(SourceOf(k1.value).value))
      else Err(UnsupportedOperands(keyword))
    else Err(InvalidInstruction(keyword))
  }

  /** How an instruction form is written: its mnemonic and the kinds of its
      operands, absent operands as None. */
  function Spelling(i: Instr): (string, Option<Kind>, Option<Kind>) {
    match i
    case Halt => ("HLT", None, None)
    case Ret => ("RET", None, None)
    case Mov(f) => ("MOV", Some(MovKinds(f).0), Some(MovKinds(f).1))
    case Arith(op, s) => (ArithMnemonic(op), Some(Register), Some(KindOf(s)))
    case Cmp(s) => ("CMP", Some(Register), Some(KindOf(s)))
    case IncReg => ("INC", Some(Register), None)
    case DecReg => ("DEC", Some(Register), None)
    case PopReg => ("POP", Some(Register), None)
    case NotReg => ("NOT", Some(Register), None)
    case Jump(c, t) => (JumpMnemonic(c), Some(TargetKind(t)), None)
    case Call(t) => ("CALL", Some(TargetKind(t)), None)
    case Push(s) => ("PUSH", Some(KindOf(s)), None)
  }

  /** The kinds getArguments hands on for a mnemonic of the table: one per
      operand its arity calls for. */
  predicate ShapedFor(keyword: string, k1: Option<Kind>, k2: Option<Kind>) {
    Lookup(keyword).Some? ==>
      (k1.Some? <==> Arity(Lookup(keyword).value) >= 1) && (k2.Some? <==> Arity(Lookup(keyword).value) == 2)
  }

  /** Every instruction form is selected by its own spelling, which has one
      operand kind per operand byte, under a mnemonic of the table. */
  lemma SpellingSelects(i: Instr)
    ensures SelectInstr(Spelling(i).0, Spelling(i).1, Spelling(i).2) == Ok(i)
    ensures Lookup(Spelling(i).0).Some? && Size(i) == 1 + Arity(Lookup(Spelling(i).0).value)
    ensures Spelling(i).1.Some? <==> Size(i) >= 2
    ensures Spelling(i).2.Some? <==> Size(i) == 3
    ensures ShapedFor(Spelling(i).0, Spelling(i).1, Spelling(i).2)
  {
    SpellingArity(i);
    match i
    case Mov(f) => MovSelects(f);
    case Arith(op, s) => ArithSelects(op, s);
    case Cmp(s) => CmpSelects(s);
    case Jump(c, t) => JumpSelects(c, t);
    case Call(t) => CallSelects(t);
    case Push(s) => PushSelects(s);
    case _ =>
  }

  /** The table gives each spelling the arity of the form's operand bytes. */
  lemma SpellingArity(i: Instr)
    ensures Lookup(Spelling(i).0) == Some(if Size(i) == 1 then Nullary else if Size(i) == 2 then Unary else BinaryArity)
  {
    match i
    case Arith(op, s) => ArithSpelling(op);
    case Jump(c, t) => JumpSpelling(c);
    case _ =>
  }

  /** Each arithmetic mnemonic names its operation and takes two operands. */
  lemma ArithSpelling(op: BinaryOp)
    ensures ArithOf(ArithMnemonic(op)) == Some(op) && Lookup(ArithMnemonic(op)) == Some(BinaryArity)
  {
    match op
    case Add =>
    case Sub =>
    case And =>
    case Or =>
    case Xor =>
    case Shl =>
    case Shr =>
  }

  /** Each jump mnemonic names its condition and takes one operand. */
  lemma JumpSpelling(c: Condition)
    ensures JumpOf(JumpMnemonic(c)) == Some(c) && Lookup(JumpMnemonic(c)) == Some(Unary)
  {
    match c
    case Always =>
    case Carry =>
    case NoCarry =>
    case Zero =>
    case NotZero =>
    case Above =>
    case NotAbove =>
  }

  lemma MovSelects(f: MovForm)
    ensures SelectInstr("MOV", Some(MovKinds(f).0), Some(MovKinds(f).1)) == Ok(Mov(f))
  {
    assert MovFormOf(MovKinds(f).0, MovKinds(f).1) == Some(f);
  }

  lemma ArithSelects(op: BinaryOp, s: Source)
    ensures SelectInstr(ArithMnemonic(op), Some(Register), Some(KindOf(s))) == Ok(Arith(op, s))
  {
    ArithSpelling(op);
    assert SourceOf(KindOf(s)) == Some(s);
  }

  lemma CmpSelects(s: Source)
    ensures SelectInstr("CMP", Some(Register), Some(KindOf(s))) == Ok(Cmp(s))
  {
    assert SourceOf(KindOf(s)) == Some(s);
  }

  lemma JumpSelects(c: Condition, t: Target)
    ensures SelectInstr(JumpMnemonic(c), Some(TargetKind(t)), None) == Ok(Jump(c, t))
  {
    JumpSpelling(c);
    assert TargetOf(TargetKind(t)) == Some(t);
  }

  lemma CallSelects(t: Target)
    ensures SelectInstr("CALL", Some(TargetKind(t)), None) == Ok(Call(t))
  {
    assert TargetOf(TargetKind(t)) == Some(t);
  }

  lemma PushSelects(s: Source)
    ensures SelectInstr("PUSH", Some(KindOf(s)), None) == Ok(Push(s))
  {
    assert SourceOf(KindOf(s)) == Some(s);
  }

  /** Opcode selection and spelling are inverse: on operands shaped by the
      arity check, the assembler selects form i exactly for i's mnemonic and
      operand kinds. */
  lemma SelectInstrIsSpelling(keyword: string, k1: Option<Kind>, k2: Option<Kind>, i: Instr)
    requires ShapedFor(keyword, k1, k2)
    ensures SelectInstr(keyword, k1, k2) == Ok(i) <==> Spelling(i) == (keyword, k1, k2)
  {
    SpellingSelects(i);
    if SelectInstr(keyword, k1, k2) == Ok(i) {
      SelectedIsSpelled(keyword, k1, k2);
    }
  }

  lemma SelectedIsSpelled(keyword: string, k1: Option<Kind>, k2: Option<Kind>)
    requires ShapedFor(keyword, k1, k2)
    requires SelectInstr(keyword, k1, k2).Ok?
    ensures Spelling(SelectInstr(keyword, k1, k2).value) == (keyword, k1, k2)
  {
    if keyword == "HLT" || keyword == "RET" {
      SelectedNullary(keyword, k1, k2);
    } else if keyword == "MOV" {
      SelectedMov(k1, k2);
    } else if ArithOf(keyword).Some? {
      SelectedArith(keyword, k1, k2);
    } else if keyword == "CMP" {
      SelectedCmp(k1, k2);
    } else if RegisterOnly(keyword).Some? {
      SelectedRegisterOnly(keyword, k1, k2);
    } else if JumpOf(keyword).Some? {
      SelectedJump(keyword, k1, k2);
    } else if keyword == "CALL" {
      SelectedCall(k1, k2);
    } else {
      assert keyword == "PUSH";
      SelectedPush(k1, k2);
    }
  }

  // The cases of SelectedIsSpelled, one group of mnemonics each.

  lemma SelectedNullary(keyword: string, k1: Option<Kind>, k2: Option<Kind>)
    requires ShapedFor(keyword, k1, k2) && (keyword == "HLT" || keyword == "RET")
    ensures SelectInstr(keyword, k1, k2).Ok? && Spelling(SelectInstr(keyword, k1, k2).value) == (keyword, k1, k2)
  {
    assert Lookup(keyword) == Some(Nullary);
  }

  lemma SelectedMov(k1: Option<Kind>, k2: Option<Kind>)
    requires ShapedFor("MOV", k1, k2) && SelectInstr("MOV", k1, k2).Ok?
    ensures Spelling(SelectInstr("MOV", k1, k2).value) == ("MOV", k1, k2)
  {
    MovInverse(k1.value, k2.value);
  }

  lemma SelectedArith(keyword: string, k1: Option<Kind>, k2: Option<Kind>)
    requires ShapedFor(keyword, k1, k2) && SelectInstr(keyword, k1, k2).Ok? && ArithOf(keyword).Some?
    ensures Spelling(SelectInstr(keyword, k1, k2).value) == (keyword, k1, k2)
  {
    ArithInverse(keyword);
    SourceInverse(k2.value);
  }

  lemma SelectedCmp(k1: Option<Kind>, k2: Option<Kind>)
    requires ShapedFor("CMP", k1, k2) && SelectInstr("CMP", k1, k2).Ok?
    ensures Spelling(SelectInstr("CMP", k1, k2).value) == ("CMP", k1, k2)
  {
    assert Lookup("CMP") == Some(BinaryArity);
    SourceInverse(k2.value);
  }

  lemma SelectedRegisterOnly(keyword: string, k1: Option<Kind>, k2: Option<Kind>)
    requires ShapedFor(keyword, k1, k2) && SelectInstr(keyword, k1, k2).Ok? && RegisterOnly(keyword).Some?
    ensures Spelling(SelectInstr(keyword, k1, k2).value) == (keyword, k1, k2)
  {
    RegisterOnlyInverse(keyword);
  }

  lemma RegisterOnlyInverse(keyword: string)
    ensures RegisterOnly(keyword).Some? ==> Lookup(keyword) == Some(Unary)
    ensures RegisterOnly(keyword).Some? ==> Spelling(RegisterOnly(keyword).value) == (keyword, Some(Register), None)
  {
    if keyword == "INC" {
    } else if keyword == "DEC" {
    } else if keyword == "POP" {
    } else if keyword == "NOT" {
    }
  }

  lemma SelectedJump(keyword: string, k1: Option<Kind>, k2: Option<Kind>)
    requires ShapedFor(keyword, k1, k2) && SelectInstr(keyword, k1, k2).Ok? && JumpOf(keyword).Some?
    ensures Spelling(SelectInstr(keyword, k1, k2).value) == (keyword, k1, k2)
  {
    JumpInverse(keyword);
    TargetInverse(k1.value);
  }

  lemma SelectedCall(k1: Option<Kind>, k2: Option<Kind>)
    requires ShapedFor("CALL", k1, k2) && SelectInstr("CALL", k1, k2).Ok?
    ensures Spelling(SelectInstr("CALL", k1, k2).value) == ("CALL", k1, k2)
  {
    assert Lookup("CALL") == Some(Unary);
    TargetInverse(k1.value);
  }

  lemma SelectedPush(k1: Option<Kind>, k2: Option<Kind>)
    requires ShapedFor("PUSH", k1, k2) && SelectInstr("PUSH", k1, k2).Ok?
    ensures Spelling(SelectInstr("PUSH", k1, k2).value) == ("PUSH", k1, k2)
  {
    assert Lookup("PUSH") == Some(Unary);
    SourceInverse(k1.value);
  }

  lemma MovInverse(k1: Kind, k2: Kind)
    ensures MovFormOf(k1, k2).Some? ==> MovKinds(MovFormOf(k1, k2).value) == (k1, k2)
  {
  }

  lemma SourceInverse(k: Kind)
    ensures SourceOf(k).Some? ==> KindOf(SourceOf(k).value) == k
  {
  }

  lemma TargetInverse(k: Kind)
    ensures TargetOf(k).Some? ==> TargetKind(TargetOf(k).value) == k
  {
  }

  lemma ArithInverse(keyword: string)
    ensures ArithOf(keyword).Some? ==> ArithMnemonic(ArithOf(keyword).value) == keyword && Lookup(keyword) == Some(BinaryArity)
  {
  }

  lemma JumpInverse(keyword: string)
    ensures JumpOf(keyword).Some? ==> JumpMnemonic(JumpOf(keyword).value) == keyword && Lookup(keyword) == Some(Unary)
  {
  }

  /** Which mnemonics have no case: exactly those outside the table, MUL
      and DIV, and DB, which EmitInstruction handles before selection. */
  lemma InvalidMnemonics(keyword: string, k1: Option<Kind>, k2: Option<Kind>)
    ensures SelectInstr(keyword, k1, k2) == Err(InvalidInstruction(keyword))
        <==> Lookup(keyword).None? || keyword in {"MUL", "DIV", "DB"}
  {
    if SelectInstr(keyword, k1, k2) == Err(InvalidInstruction(keyword)) {
      InvalidAreUnlisted(keyword, k1, k2);
    }
    if Lookup(keyword).None? {
      UnlistedAreInvalid(keyword, k1, k2);
    } else if keyword in {"MUL", "DIV", "DB"} {
      CaselessAreInvalid(keyword, k1, k2);
    }
  }

  /** A mnemonic without a case is not in the table, or is MUL, DIV or DB. */
  lemma InvalidAreUnlisted(keyword: string, k1: Option<Kind>, k2: Option<Kind>)
    requires SelectInstr(keyword, k1, k2) == Err(InvalidInstruction(keyword))
    ensures Lookup(keyword).None? || keyword in {"MUL", "DIV", "DB"}
  {
  }

  /** A word outside the table has no case. */
  lemma UnlistedAreInvalid(keyword: string, k1: Option<Kind>, k2: Option<Kind>)
    requires Lookup(keyword).None?
    ensures SelectInstr(keyword, k1, k2) == Err(InvalidInstruction(keyword))
  {
  }

  /** MUL, DIV and DB are in the table but have no case. */
  lemma CaselessAreInvalid(keyword: string, k1: Option<Kind>, k2: Option<Kind>)
    requires keyword in {"MUL", "DIV", "DB"}
    ensures SelectInstr(keyword, k1, k2) == Err(InvalidInstruction(keyword))
  {
  }

  // ---------------------------------------------------------------------
  // Emission.

  /** A code cell during assembly: a number, or a label name the second
      pass replaces. */
  datatype Slot = Value(v: int) | Pending(name: string)

  /** The cell an operand's value occupies. Strings are never the operand of
      an instruction (see SpellingKinds). */
  function SlotOf(p: Option<Operand>): Slot {
    match p
    case Some(Operand(_, Name(x))) => Pending(x)
    case Some(Operand(_, Int(n))) => Value(n)
    case _ => Value(0)
  }

  /** DB's data: a number or label as one cell, a character as its code, a
      string as one cell per character. */
  function DataSlots(p1: Option<Operand>): Result<seq<Slot>> {
    match p1
    case Some(Operand(Number, v)) => Ok([SlotOf(p1)])
    case Some(Operand(Char, Int(c))) => Ok([Value(c)])
    case Some(Operand(String, Codes(cs))) => Ok(seq(|cs|, k requires 0 <= k < |cs| => Value(cs[k])))
    case _ => Err(UnsupportedOperands("DB"))
  }

  function KindOfOperand(p: Option<Operand>): Option<Kind> {
    if p.Some? then Some(p.value.kind) else None
  }

  /** The cells one instruction line appends: DB's data, or the opcode
      followed by one cell per operand. */
  function EmitInstruction(keyword: string, p1: Option<Operand>, p2: Option<Operand>): Result<seq<Slot>> {
    if keyword == "DB" then DataSlots(p1)
    else
      var i :- SelectInstr(keyword, KindOfOperand(p1), KindOfOperand(p2));
      Ok([Value(Encode(i))]
         + (if Size(i) >= 2 then [SlotOf(p1)] else [])
         + (if Size(i) == 3 then [SlotOf(p2)] else []))
  }

  /** An emitted instruction starts with the opcode the CPU decodes back to
      the selected form, and occupies exactly that form's size, the opcode
      and one cell per operand in operand order. */
  lemma EmitLayout(keyword: string, p1: Option<Operand>, p2: Option<Operand>)
    requires keyword != "DB" && ShapedFor(keyword, KindOfOperand(p1), KindOfOperand(p2))
    requires EmitInstruction(keyword, p1, p2).Ok?
    ensures var i := SelectInstr(keyword, KindOfOperand(p1), KindOfOperand(p2)).value;
      var slots := EmitInstruction(keyword, p1, p2).value;
      && Decode(slots[0].v) == Some(i)
      && |slots| == Size(i) == 1 + Arity(Lookup(keyword).value)
      && (|slots| >= 2 ==> p1.Some? && p1.value.kind != String && slots[1] == SlotOf(p1))
      && (|slots| == 3 ==> p2.Some? && p2.value.kind != String && slots[2] == SlotOf(p2))
  {
    var i := SelectInstr(keyword, KindOfOperand(p1), KindOfOperand(p2)).value;
    SelectedIsSpelled(keyword, KindOfOperand(p1), KindOfOperand(p2));
    SpellingSelects(i);
    DecodeEncode(i);
  }

  /** DB emits one cell for a number or character and one per character of
      a string, and rejects every other kind. */
  lemma DataSizes(p1: Operand)
    requires WellFormedOperand(p1)
    ensures DataSlots(Some(p1)).Ok? <==> p1.kind in {Number, Char, String}
    ensures p1.kind in {Number, Char} ==> |DataSlots(Some(p1)).value| == 1
    ensures p1.kind == String ==> DataSlots(Some(p1)).value == seq(|p1.value.codes|, k requires 0 <= k < |p1.value.codes| => Value(p1.value.codes[k]))
  {
  }

  // ---------------------------------------------------------------------
  // The first pass, as a function of the lines.

  /** What the first pass has built so far. */
  datatype Image = Image(code: seq<Slot>, labels: map<string, int>, mapping: map<int, nat>)

  const EmptyImage := Image([], map[], map[])

  /** `addLabel`: a name already bound is a duplicate; a register name A, B,
      C or D in any case is refused; otherwise the name is bound to the
      current code length. */
  function AddLabelSpec(img: Image, name: string): Result<Image> {
    if name in img.labels then Err(DuplicateLabel(name))
    else if Upper(name) in {"A", "B", "C", "D"} then Err(LabelIsKeyword(Upper(name)))
    else Ok(img.(labels := img.labels[name := |img.code|]))
  }

  /** A label is accepted exactly when it is unbound and no general-purpose
      register name; it then denotes the offset of the next cell, and nothing
      else changes. SP is accepted as a label. */
  lemma AddLabelRules(img: Image, name: string)
    ensures AddLabelSpec(img, name).Ok? <==> name !in img.labels && Upper(name) !in {"A", "B", "C", "D"}
    ensures AddLabelSpec(img, name).Ok? ==>
      var r := AddLabelSpec(img, name).value;
      r.labels[name] == |img.code| && r.code == img.code && r.mapping == img.mapping
      && (forall x :: x in img.labels ==> x in r.labels && r.labels[x] == img.labels[x])
      && r.labels.Keys == img.labels.Keys + {name}
    ensures name in img.labels ==> AddLabelSpec(img, name) == Err(DuplicateLabel(name))
    ensures AddLabelSpec(EmptyImage, "sp").Ok? && AddLabelSpec(EmptyImage, "b") == Err(LabelIsKeyword("B"))
  {
    assert Upper("sp") == "SP";
    assert Upper("b") == "B";
  }

  /** What one line contributes, whatever the labels bound before it: its
      label, and for a line with a mnemonic the cells it emits or the error
      that stops the assembly. */
  datatype LineInfo = LineInfo(labelName: Option<string>, body: Option<Result<seq<Slot>>>)

  /** The cells of a statement: the upper-case mnemonic, its operands
      checked against its arity and classified, then emitted. */
  function StatementCells(instruction: string, operand1: Option<string>, operand2: Option<string>): Result<seq<Slot>> {
    var keyword := Upper(instruction);
    var args :- GetArguments(StringTagged, Lookup(keyword), operand1, operand2);
    EmitInstruction(keyword, args.0, args.1)
  }

  function Analyse(f: Fields): LineInfo {
    LineInfo(f.labelName, if f.instruction.None? then None else Some(StatementCells(f.instruction.value, f.operand1, f.operand2)))
  }

  function AnalyseLine(line: string): LineInfo {
    Analyse(InterpretLine(line))
  }

  /** The analysis of every line, in order. */
  function AnalyseLines(lines: seq<string>): (infos: seq<LineInfo>)
    ensures |infos| == |lines|
  {
    if lines == [] then [] else AnalyseLines(lines[..|lines| - 1]) + [AnalyseLine(lines[|lines| - 1])]
  }

  /** infos holds the analysis of each line. The relation is only used
      for a line and its analysis taken together. */
  predicate Analysed(lines: seq<string>, infos: seq<LineInfo>) {
    |infos| == |lines| && forall j {:trigger infos[j], lines[j]} :: 0 <= j < |lines| ==> infos[j] == AnalyseLine(lines[j])
  }

  lemma AnalysisOf(lines: seq<string>) returns (infos: seq<LineInfo>)
    ensures Analysed(lines, infos) && infos == AnalyseLines(lines)
  {
    infos := AnalyseLines(lines);
    forall j | 0 <= j < |lines|
      ensures infos[j] == AnalyseLine(lines[j])
    {
      AnalyseLinesAt(lines, j);
    }
  }

  lemma {:induction false} AnalyseLinesAt(lines: seq<string>, i: nat)
    requires i < |lines|
    ensures AnalyseLines(lines)[i] == AnalyseLine(lines[i])
    decreases |lines|
  {
    var front := lines[..|lines| - 1];
    if i < |lines| - 1 {
      AnalyseLinesAt(front, i);
      assert front[i] == lines[i];
    }
  }

  /** One line of the first pass: the label is bound first, then the line
      index is recorded at the current offset and the cells appended. */
  function LineStep(img: Image, index: nat, info: LineInfo): Result<Image> {
    var labelled :- if info.labelName.Some? then AddLabelSpec(img, info.labelName.value) else Ok(img);
    match info.body
    case None => Ok(labelled)
    case Some(Err(e)) => Err(e)
    case Some(Ok(slots)) => Ok(Image(labelled.code + slots, labelled.labels, labelled.mapping[|labelled.code| := index]))
  }

  /** The first pass over the first n lines. */
  function Pass1(infos: seq<LineInfo>, n: nat): Result<Image>
    requires n <= |infos|
  {
    if n == 0 then Ok(EmptyImage)
    else
      var img :- Pass1(infos, n - 1);
      LineStep(img, n - 1, infos[n - 1])
  }

  /** The first failing line ends the pass. */
  lemma {:induction false} Pass1Stops(infos: seq<LineInfo>, m: nat, n: nat)
    requires m <= n <= |infos| && Pass1(infos, m).Err?
    ensures Pass1(infos, n) == Pass1(infos, m)
    decreases n
  {
    if n > m {
      Pass1Stops(infos, m, n - 1);
    }
  }

  /** What the first pass keeps true: labels point into the code or just
      past it, and every recorded line start is an offset of the code or,
      after a line whose data is an empty string, the end of the code. */
  predicate Consistent(img: Image) {
    (forall x :: x in img.labels ==> 0 <= img.labels[x] <= |img.code|)
    && (forall a :: a in img.mapping ==> 0 <= a <= |img.code|)
  }

  /** One line keeps the first pass consistent, only appends to the code,
      and records its line index at the offset of its first cell. */
  lemma LineStepGrows(img: Image, index: nat, info: LineInfo)
    requires Consistent(img) && LineStep(img, index, info).Ok?
    ensures var r := LineStep(img, index, info).value;
      && Consistent(r) && |img.code| <= |r.code| && r.code[..|img.code|] == img.code
      && (info.body.Some? ==> r.mapping[|img.code|] == index)
      && (info.labelName.Some? ==> r.labels[info.labelName.value] == |img.code|)
  {
    var r := LineStep(img, index, info).value;
    assert r.code[..|img.code|] == img.code;
  }

  /** After any number of lines the pass is consistent, and each later
      image extends every earlier one. */
  lemma {:induction false} Pass1Grows(infos: seq<LineInfo>, m: nat, n: nat)
    requires m <= n <= |infos| && Pass1(infos, n).Ok?
    ensures Pass1(infos, m).Ok? && Consistent(Pass1(infos, n).value)
    ensures |Pass1(infos, m).value.code| <= |Pass1(infos, n).value.code|
    ensures Pass1(infos, n).value.code[..|Pass1(infos, m).value.code|] == Pass1(infos, m).value.code
    decreases n
  {
    if n > 0 {
      assert Pass1(infos, n - 1).Ok?;
      var before := Pass1(infos, n - 1).value;
      Pass1Grows(infos, if m < n then m else n - 1, n - 1);
      LineStepGrows(before, n - 1, infos[n - 1]);
      if m < n {
        var a := Pass1(infos, m).value.code;
        var c := Pass1(infos, n).value.code;
        assert c[..|before.code|] == before.code;
        assert before.code[..|a|] == a;
        assert c[..|a|] == a;
      }
    }
  }

  // ---------------------------------------------------------------------
  // The second pass.

  function ResolveSlot(s: Slot, labels: map<string, int>): Result<int> {
    match s
    case Value(n) => Ok(n)
    case Pending(x) => if x in labels then Ok(labels[x]) else Err(UndefinedLabel(x))
  }

  /** The code with every name replaced by its label's offset, or the first
      name that is not a label. */
  function Resolve(code: seq<Slot>, labels: map<string, int>): Result<seq<int>>
    decreases |code|
  {
    if code == [] then Ok([])
    else
      var v :- ResolveSlot(code[0], labels);
      var rest :- Resolve(code[1..], labels);
      Ok([v] + rest)
  }

  /** Resolution succeeds exactly when every name is bound, cell by cell. */
  lemma {:induction false} ResolveAll(code: seq<Slot>, labels: map<string, int>)
    requires forall k :: 0 <= k < |code| ==> ResolveSlot(code[k], labels).Ok?
    ensures Resolve(code, labels).Ok?
    ensures |Resolve(code, labels).value| == |code|
    ensures forall k :: 0 <= k < |code| ==> Resolve(code, labels).value[k] == ResolveSlot(code[k], labels).value
    decreases |code|
  {
    if code != [] {
      ResolveAll(code[1..], labels);
      var rest := Resolve(code[1..], labels).value;
      forall k | 0 <= k < |code|
        ensures Resolve(code, labels).value[k] == ResolveSlot(code[k], labels).value
      {
        if k > 0 {
          assert code[1..][k - 1] == code[k];
        }
      }
    }
  }

  /** The first unbound name is the one reported. */
  lemma {:induction false} ResolveFirstError(code: seq<Slot>, labels: map<string, int>, k: nat)
    requires k < |code| && ResolveSlot(code[k], labels).Err?
    requires forall j :: 0 <= j < k ==> ResolveSlot(code[j], labels).Ok?
    ensures Resolve(code, labels) == Err(ResolveSlot(code[k], labels).error)
    decreases k
  {
    if k > 0 {
      ResolveFirstError(code[1..], labels, k - 1);
    }
  }

  // ---------------------------------------------------------------------
  // Assembling a source.

  /** The assembler's output: the bytes, the label offsets, and the map from
      instruction offsets to line indices. */
  datatype Program = Program(code: seq<int>, labels: map<string, int>, mapping: map<int, nat>)

  function AssembleSpec(src: string): Result<Program> {
    var infos := AnalyseLines(SplitLines(src));
    var img :- Pass1(infos, |infos|);
    var bytes :- Resolve(img.code, img.labels);
    Ok(Program(bytes, img.labels, img.mapping))
  }

  class Assembler {
    var code: seq<Slot>
    var mapping: map<int, nat>
    var labels: map<string, int>

    function State(): Image
      reads this
    {
      Image(code, labels, mapping)
    }

    constructor()
      ensures State() == EmptyImage
    {
      code := [];
      mapping := map[];
      labels := map[];
    }

    method Reset()
      modifies this
      ensures State() == EmptyImage
    {
      code := [];
      mapping := map[];
      labels := map[];
    }

    method AddLabel(name: string) returns (o: Outcome)
      modifies this
      ensures o.Pass? ==> AddLabelSpec(old(State()), name) == Ok(State())
      ensures o.Fail? ==> AddLabelSpec(old(State()), name) == Err(o.error) && State() == old(State())
    {
      if name in labels {
        return Fail(DuplicateLabel(name));
      }
      var upper := Upper(name);
      if upper == "A" || upper == "B" || upper == "C" || upper == "D" {
        return Fail(LabelIsKeyword(upper));
      }
      labels := labels[name := |code|];
      return Pass;
    }

    /** `code.push` of each cell in turn. */
    method Append(cells: seq<Slot>)
      modifies this
      ensures State() == old(State()).(code := old(code) + cells)
    {
      var j := 0;
      while j < |cells|
        invariant 0 <= j <= |cells|
        invariant State() == old(State()).(code := old(code) + cells[..j])
      {
        code := code + [cells[j]];
        j := j + 1;
      }
      assert cells[..j] == cells;
    }

    /** The first pass's work on one line. */
    method AssembleLine(index: nat, line: string) returns (o: Outcome)
      modifies this
      ensures LineStep(old(State()), index, AnalyseLine(line)) == if o.Pass? then Ok(State()) else Err(o.error)
    {
      var f := InterpretLine(line);
      if f.labelName.Some? {
        o := AddLabel(f.labelName.value);
        if o.Fail? {
          return;
        }
      }
      if f.instruction.Some? {
        var keyword := Upper(f.instruction.value);
        var args := GetArguments(StringTagged, Lookup(keyword), f.operand1, f.operand2);
        if args.Err? {
          return Fail(args.error);
        }
        mapping := mapping[|code| := index];
        var slots := EmitInstruction(keyword, args.value.0, args.value.1);
        if slots.Err? {
          return Fail(slots.error);
        }
        Append(slots.value);
      }
      return Pass;
    }

    /** The first pass: every line in order, stopping at the first error.
        infos, the analysis of the lines, only names what the pass is
        proved against. */
    method FirstPass(lines: seq<string>, ghost infos: seq<LineInfo>) returns (o: Outcome)
      requires State() == EmptyImage && Analysed(lines, infos)
      modifies this
      ensures Pass1(infos, |lines|) == if o.Pass? then Ok(State()) else Err(o.error)
    {
      var i := 0;
      o := Pass;
      while i < |lines| && o.Pass?
        invariant 0 <= i <= |lines|
        invariant Pass1(infos, i) == if o.Pass? then Ok(State()) else Err(o.error)
      {
        o := AssembleLineAt(lines, i, infos);
        i := i + 1;
      }
      if o.Fail? {
        Pass1Stops(infos, i, |lines|);
      }
    }

    /** `assembleLine` on line i, as one step of Pass1. */
    method AssembleLineAt(lines: seq<string>, i: nat, ghost infos: seq<LineInfo>) returns (o: Outcome)
      requires i < |lines| && Analysed(lines, infos) && Pass1(infos, i) == Ok(State())
      modifies this
      ensures Pass1(infos, i + 1) == if o.Pass? then Ok(State()) else Err(o.error)
    {
      assert infos[i] == AnalyseLine(lines[i]);
      o := AssembleLine(i, lines[i]);
    }

    /** The second pass: each name in the code is replaced in place by its
        label's offset; an unbound name stops the pass. */
    method SecondPass() returns (r: Result<seq<int>>)
      modifies this
      ensures labels == old(labels) && mapping == old(mapping)
      ensures r == Resolve(old(code), labels)
      ensures r.Ok? ==> code == seq(|r.value|, k requires 0 <= k < |r.value| => Value(r.value[k]))
    {
      ghost var pending := code;
      var k := 0;
      while k < |code|
        invariant 0 <= k <= |code| == |pending|
        invariant labels == old(labels) && mapping == old(mapping)
        invariant forall j :: 0 <= j < k ==> code[j].Value? && ResolveSlot(pending[j], labels) == Ok(code[j].v)
        invariant code[k..] == pending[k..]
      {
        assert code[k] == pending[k];
        if code[k].Pending? {
          if code[k].name in labels {
            code := code[k := Value(labels[code[k].name])];
          } else {
            ResolveFirstError(pending, labels, k);
            return Err(UndefinedLabel(code[k].name));
          }
        }
        k := k + 1;
      }
      ResolveAll(pending, labels);
      var done := code;
      r := Ok(seq(|done|, j requires 0 <= j < |done| => done[j].v));
      assert r.value == Resolve(pending, labels).value;
      assert code == seq(|r.value|, j requires 0 <= j < |r.value| => Value(r.value[j]));
    }

    /** `assemble`: reset, the first pass over the lines, then the second
        pass. The result depends on the source only. */
    method Assemble(src: string) returns (r: Result<seq<int>>)
      modifies this
      ensures r.Ok? <==> AssembleSpec(src).Ok?
      ensures r.Ok? ==> AssembleSpec(src).value == Program(r.value, labels, mapping)
      ensures r.Ok? ==> code == seq(|r.value|, k requires 0 <= k < |r.value| => Value(r.value[k]))
      ensures r.Err? ==> r.error == AssembleSpec(src).error
    {
      Reset();
      var lines := SplitLines(src);
      ghost var infos := AnalysisOf(lines);
      var o := FirstPass(lines, infos);
      if o.Fail? {
        return Err(o.error);
      }
      r := SecondPass();
    }
  }
}
