/** The enum-tagged operand interpreter: the same line pattern, number,
    register and operand readers as the string-tagged copy the assembler
    uses, with numeric type tags, `{type: None, value: 0}` placeholders for
    absent operands, and an opcode table of its own, `parseInstruction`. */
module EnumInterpreter {
  import opened Base
  import opened Alu
  import opened Opcodes
  import opened InstructionSet
  import opened Operands
  import opened Assembler

  // ---------------------------------------------------------------------
  // Type tags.

  /** `InterpreterType.None`: the tag of an absent operand. */
  const NoneTag: nat := 0
  /** `InterpreterType.Opcode`: the tag of parseInstruction's result. */
  const OpcodeTag: nat := 7

  /** The `InterpreterType` number of each operand kind. */
  function TypeCode(k: Kind): (c: nat)
    ensures NoneTag < c < OpcodeTag
  {
    match k
    case Number => 1
    case Char => 2
    case String => 3
    case Address => 4
    case Register => 5
    case RegAddress => 6
  }

  /** The kind a tag stands for; None and Opcode stand for no operand kind. */
  function TagKind(tag: nat): Option<Kind> {
    if tag == 1 then Some(Number)
    else if tag == 2 then Some(Char)
    else if tag == 3 then Some(String)
    else if tag == 4 then Some(Address)
    else if tag == 5 then Some(Register)
    else if tag == 6 then Some(RegAddress)
    else None
  }

  /** Every kind has its own tag, and the tag reads back as the kind. */
  lemma TypeCodeRoundTrip(k: Kind)
    ensures TagKind(TypeCode(k)) == Some(k)
    ensures TagKind(NoneTag) == None && TagKind(OpcodeTag) == None
  {
  }

  /** An `InterpreterValue`. */
  datatype TaggedValue = TaggedValue(tag: nat, value: Payload)

  /** The value getArguments starts each operand with. */
  const Placeholder := TaggedValue(NoneTag, Int(0))

  function Tagged(op: Operand): TaggedValue {
    TaggedValue(TypeCode(op.kind), op.value)
  }

  /** An operand of the shared reader, or the placeholder when absent. */
  function Fill(p: Option<Operand>): TaggedValue {
    if p.Some? then Tagged(p.value) else Placeholder
  }

  /** `getValue` with numeric tags and the enum-tagged range test. */
  function EnumGetValue(input: string): Result<TaggedValue> {
    var op :- GetValue(EnumTagged, input);
    Ok(Tagged(op))
  }

  /** The enum getValue classifies as the string-tagged one the assembler
      calls, with the kind's tag, except that it refuses a number of
      ExponentForm or more that the string-tagged one passes; every other
      failure is the same. */
  lemma EnumGetValueAgrees(input: string)
    ensures var s := GetValue(StringTagged, input);
      var e := EnumGetValue(input);
      && (s.Err? ==> e == Err(s.error))
      && (s.Ok? && e.Ok? ==> TagKind(e.value.tag) == Some(s.value.kind) && e.value.value == s.value.value)
      && (s.Ok? && e.Err? <==> s.Ok? && s.value.value.Int? && s.value.value.n >= ExponentForm)
      && (s.Ok? && e.Err? ==> e.error == NumberTooHigh(s.value.value.n))
  {
    GetValueCopies(input);
    if GetValue(StringTagged, input).Ok? {
      TypeCodeRoundTrip(GetValue(StringTagged, input).value.kind);
    }
  }

  /** `getArguments`: both operands start as placeholders and the arity
      check fills in those the descriptor calls for. */
  function EnumGetArguments(d: Option<Descriptor>, operand1: Option<string>, operand2: Option<string>)
    : Result<(TaggedValue, TaggedValue)>
  {
    match d
    case None => Ok((Placeholder, Placeholder))
    case Some(desc) =>
      if desc.unary && !desc.binary then
        if operand1.Some? && operand2.None? then
          var p1 :- EnumGetValue(operand1.value);
          Ok((p1, Placeholder))
        else Err(WrongOperandCount(1))
      else if !desc.unary && desc.binary then
        if operand1.Some? && operand2.Some? then
          var p1 :- EnumGetValue(operand1.value);
          var p2 :- EnumGetValue(operand2.value);
          Ok((p1, p2))
        else Err(WrongOperandCount(2))
      else if !desc.unary && !desc.binary then
        if operand1.Some? || operand2.Some? then Err(WrongOperandCount(0))
        else Ok((Placeholder, Placeholder))
      else Ok((Placeholder, Placeholder))
  }

  /** The enum getArguments is the shared one with every absent operand
      replaced by the placeholder: same errors, same operands. */
  lemma EnumGetArgumentsAgrees(d: Option<Descriptor>, operand1: Option<string>, operand2: Option<string>)
    ensures var r := EnumGetArguments(d, operand1, operand2);
      var s := GetArguments(EnumTagged, d, operand1, operand2);
      (r.Ok? <==> s.Ok?) &&
      (s.Err? ==> r.error == s.error) &&
      (s.Ok? ==> r.value == (Fill(s.value.0), Fill(s.value.1)))
  {
  }

  // ---------------------------------------------------------------------
  // The opcode table.

  /** The seven operations whose first operand is the destination
      register: one opcode per kind of the second operand. */
  function RegisterAnd(keyword: string, k1: Option<Kind>, k2: Option<Kind>, rr: byte, ra: byte, rra: byte, rn: byte)
    : Result<byte>
  {
    if k1 == Some(Register) && k2 == Some(Register) then Ok(rr)
    else if k1 == Some(Register) && k2 == Some(Address) then Ok(ra)
    else if k1 == Some(Register) && k2 == Some(RegAddress) then Ok(rra)
    else if k1 == Some(Register) && k2 == Some(Number) then Ok(rn)
    else Err(UnsupportedOperands(keyword))
  }

  /** A jump or call: to a number, or through a bracketed register. */
  function ByTarget(keyword: string, k1: Option<Kind>, addr: byte, regaddr: byte): Result<byte> {
    if k1 == Some(Number) then Ok(addr)
    else if k1 == Some(RegAddress) then Ok(regaddr)
    else Err(UnsupportedOperands(keyword))
  }

  function RegisterOnlyCode(keyword: string, k1: Option<Kind>, code: byte): Result<byte> {
    if k1 == Some(Register) then Ok(code) else Err(UnsupportedOperands(keyword))
  }

  function MovCode(k1: Option<Kind>, k2: Option<Kind>): Result<byte> {
    if k1 == Some(Register) && k2 == Some(Register) then Ok(MOV_REG_TO_REG)
    else if k1 == Some(Register) && k2 == Some(Address) then Ok(MOV_ADDR_TO_REG)
    else if k1 == Some(Register) && k2 == Some(RegAddress) then Ok(MOV_REGADDR_TO_REG)
    else if k1 == Some(Address) && k2 == Some(Register) then Ok(MOV_REG_TO_ADDR)
    else if k1 == Some(RegAddress) && k2 == Some(Register) then Ok(MOV_REG_TO_REGADDR)
    else if k1 == Some(Register) && k2 == Some(Number) then Ok(MOV_NUM_TO_REG)
    else if k1 == Some(Address) && k2 == Some(Number) then Ok(MOV_NUM_TO_ADDR)
    else if k1 == Some(RegAddress) && k2 == Some(Number) then Ok(MOV_NUM_TO_REGADDR)
    else Err(UnsupportedOperands("MOV"))
  }

  /** `parseInstruction` on the kinds its `isRegister`, `isAddress`,
      `isRegAddress` and `isNumber` tests see (None for an operand that is
      a placeholder or absent). DB has no statements of its own and falls
      into HLT's case; every SUBT form selects SUBT_NUM_FROM_REG. */
  function ParseInstruction(keyword: string, k1: Option<Kind>, k2: Option<Kind>): Result<byte> {
    if keyword == "DB" || keyword == "HLT" then Ok(NONE)
    else if keyword == "MOV" then MovCode(k1, k2)
    else if keyword == "ADD" then
      RegisterAnd(keyword, k1, k2, ADD_REG_TO_REG, ADD_ADDR_TO_REG, ADD_REGADDR_TO_REG, ADD_NUM_TO_REG)
    else if keyword == "SUBT" then
      RegisterAnd(keyword, k1, k2, SUBT_NUM_FROM_REG, SUBT_NUM_FROM_REG, SUBT_NUM_FROM_REG, SUBT_NUM_FROM_REG)
    else if keyword == "INC" then RegisterOnlyCode(keyword, k1, INC_REG)
    else if keyword == "DEC" then RegisterOnlyCode(keyword, k1, DEC_REG)
    else if keyword == "CMP" then
      RegisterAnd(keyword, k1, k2, CMP_REG_TO_REG, CMP_ADDR_TO_REG, CMP_REGADDR_TO_REG, CMP_NUM_TO_REG)
    else if keyword == "JMP" then ByTarget(keyword, k1, JMP_ADDR, JMP_REGADDR)
    else if keyword == "JC" then ByTarget(keyword, k1, JC_ADDR, JC_REGADDR)
    else if keyword == "JNC" then ByTarget(keyword, k1, JNC_ADDR, JNC_REGADDR)
    else if keyword == "JZ" then ByTarget(keyword, k1, JZ_ADDR, JZ_REGADDR)
    else if keyword == "JNZ" then ByTarget(keyword, k1, JNZ_ADDR, JNZ_REGADDR)
    else if keyword == "JA" then ByTarget(keyword, k1, JA_ADDR, JA_REGADDR)
    else if keyword == "JNA" then ByTarget(keyword, k1, JNA_ADDR, JNA_REGADDR)
    else if keyword == "PUSH" then
      if k1 == Some(Register) then Ok(PUSH_REG)
      else if k1 == Some(Address) then Ok(PUSH_ADDR)
      else if k1 == Some(RegAddress) then Ok(PUSH_REGADDR)
      else if k1 == Some(Number) then Ok(PUSH_NUM)
      else Err(UnsupportedOperands(keyword))
    else if keyword == "POP" then RegisterOnlyCode(keyword, k1, POP_REG)
    else if keyword == "CALL" then ByTarget(keyword, k1, CALL_ADDR, CALL_REGADDR)
    else if keyword == "RET" then Ok(RET)
    else if keyword == "AND" then
      RegisterAnd(keyword, k1, k2, AND_REG_TO_REG, AND_ADDR_TO_REG, AND_REGADDR_TO_REG, AND_NUM_TO_REG)
    else if keyword == "OR" then
      RegisterAnd(keyword, k1, k2, OR_REG_TO_REG, OR_ADDR_TO_REG, OR_REGADDR_TO_REG, OR_NUM_TO_REG)
    else if keyword == "XOR" then
      RegisterAnd(keyword, k1, k2, XOR_REG_TO_REG, XOR_ADDR_TO_REG, XOR_REGADDR_TO_REG, XOR_NUM_TO_REG)
    else if keyword == "SHL" then
      RegisterAnd(keyword, k1, k2, SHL_REG_TO_REG, SHL_ADDR_TO_REG, SHL_REGADDR_TO_REG, SHL_NUM_TO_REG)
    else if keyword == "SHR" then
      RegisterAnd(keyword, k1, k2, SHR_REG_TO_REG, SHR_ADDR_TO_REG, SHR_REGADDR_TO_REG, SHR_NUM_TO_REG)
    else if keyword == "NOT" then RegisterOnlyCode(keyword, k1, NOT_REG)
    else Err(InvalidInstruction(keyword))
  }

  /** `parseInstruction` on the values getArguments returns. */
  function ParseInstructionOf(keyword: string, p1: TaggedValue, p2: TaggedValue): Result<byte> {
    ParseInstruction(keyword, TagKind(p1.tag), TagKind(p2.tag))
  }

  /** The assembler's choice for the same mnemonic and kinds, encoded. */
  function Assembled(keyword: string, k1: Option<Kind>, k2: Option<Kind>): Result<byte> {
    var i :- SelectInstr(keyword, k1, k2);
    Ok(Encode(i))
  }

  // ---------------------------------------------------------------------
  // The table against the assembler's.

  /** Apart from SUBT and DB, parseInstruction picks the opcode the
      assembler picks, and fails with the same error where it fails. */
  lemma ParseInstructionAgrees(keyword: string, k1: Option<Kind>, k2: Option<Kind>)
    requires keyword != "SUBT" && keyword != "DB"
    ensures ParseInstruction(keyword, k1, k2) == Assembled(keyword, k1, k2)
  {
    if keyword == "HLT" || keyword == "RET" {
    } else if keyword == "MOV" {
      AgreeMov(k1, k2);
    } else if ArithOf(keyword).Some? {
      var op := ArithOf(keyword).value;
      ArithInverse(keyword);
      AgreeArith(op, k1, k2);
    } else if keyword == "CMP" {
      AgreeCmp(k1, k2);
    } else if RegisterOnly(keyword).Some? {
      AgreeRegisterOnly(keyword, k1, k2);
    } else if JumpOf(keyword).Some? {
      var c := JumpOf(keyword).value;
      JumpInverse(keyword);
      AgreeJump(c, k1, k2);
    } else if keyword == "CALL" {
      AgreeCall(k1, k2);
    } else if keyword == "PUSH" {
      AgreePush(k1, k2);
    } else {
      AgreeUnknown(keyword, k1, k2);
    }
  }

  lemma AgreeMov(k1: Option<Kind>, k2: Option<Kind>)
    ensures ParseInstruction("MOV", k1, k2) == Assembled("MOV", k1, k2)
  {
  }

  lemma AgreeArith(op: BinaryOp, k1: Option<Kind>, k2: Option<Kind>)
    requires op != Sub
    ensures ParseInstruction(ArithMnemonic(op), k1, k2) == Assembled(ArithMnemonic(op), k1, k2)
  {
    match op
    case Add => AgreeAdd(k1, k2);
    case And => AgreeAnd(k1, k2);
    case Or => AgreeOr(k1, k2);
    case Xor => AgreeXor(k1, k2);
    case Shl => AgreeShl(k1, k2);
    case Shr => AgreeShr(k1, k2);
  }

  // One lemma per mnemonic keeps each table walk small.

  lemma AgreeAdd(k1: Option<Kind>, k2: Option<Kind>)
    ensures ParseInstruction("ADD", k1, k2) == Assembled("ADD", k1, k2)
  {
  }

  lemma AgreeAnd(k1: Option<Kind>, k2: Option<Kind>)
    ensures ParseInstruction("AND", k1, k2) == Assembled("AND", k1, k2)
  {
  }

  lemma AgreeOr(k1: Option<Kind>, k2: Option<Kind>)
    ensures ParseInstruction("OR", k1, k2) == Assembled("OR", k1, k2)
  {
  }

  lemma AgreeXor(k1: Option<Kind>, k2: Option<Kind>)
    ensures ParseInstruction("XOR", k1, k2) == Assembled("XOR", k1, k2)
  {
  }

  lemma AgreeShl(k1: Option<Kind>, k2: Option<Kind>)
    ensures ParseInstruction("SHL", k1, k2) == Assembled("SHL", k1, k2)
  {
  }

  lemma AgreeShr(k1: Option<Kind>, k2: Option<Kind>)
    ensures ParseInstruction("SHR", k1, k2) == Assembled("SHR", k1, k2)
  {
  }

  lemma AgreeCmp(k1: Option<Kind>, k2: Option<Kind>)
    ensures ParseInstruction("CMP", k1, k2) == Assembled("CMP", k1, k2)
  {
  }

  lemma AgreeRegisterOnly(keyword: string, k1: Option<Kind>, k2: Option<Kind>)
    requires RegisterOnly(keyword).Some?
    ensures ParseInstruction(keyword, k1, k2) == Assembled(keyword, k1, k2)
  {
    if keyword == "INC" {
      AgreeInc(k1, k2);
    } else if keyword == "DEC" {
      AgreeDec(k1, k2);
    } else if keyword == "POP" {
      AgreePop(k1, k2);
    } else {
      AgreeNot(k1, k2);
    }
  }

  lemma AgreeInc(k1: Option<Kind>, k2: Option<Kind>)
    ensures ParseInstruction("INC", k1, k2) == Assembled("INC", k1, k2)
  {
  }

  lemma AgreeDec(k1: Option<Kind>, k2: Option<Kind>)
    ensures ParseInstruction("DEC", k1, k2) == Assembled("DEC", k1, k2)
  {
  }

  lemma AgreePop(k1: Option<Kind>, k2: Option<Kind>)
    ensures ParseInstruction("POP", k1, k2) == Assembled("POP", k1, k2)
  {
  }

  lemma AgreeNot(k1: Option<Kind>, k2: Option<Kind>)
    ensures ParseInstruction("NOT", k1, k2) == Assembled("NOT", k1, k2)
  {
  }

  lemma AgreeJump(c: Condition, k1: Option<Kind>, k2: Option<Kind>)
    ensures ParseInstruction(JumpMnemonic(c), k1, k2) == Assembled(JumpMnemonic(c), k1, k2)
  {
    match c
    case Always =>
    case Carry =>
    case NoCarry =>
    case Zero =>
    case NotZero =>
    case Above =>
    case NotAbove =>
  }

  lemma AgreeCall(k1: Option<Kind>, k2: Option<Kind>)
    ensures ParseInstruction("CALL", k1, k2) == Assembled("CALL", k1, k2)
  {
  }

  lemma AgreePush(k1: Option<Kind>, k2: Option<Kind>)
    ensures ParseInstruction("PUSH", k1, k2) == Assembled("PUSH", k1, k2)
  {
  }

  /** A word neither table has a case for is an invalid instruction to
      both. */
  lemma AgreeUnknown(keyword: string, k1: Option<Kind>, k2: Option<Kind>)
    requires keyword !in {"DB", "HLT", "MOV", "ADD", "SUBT", "INC", "DEC", "CMP", "JMP", "JC", "JNC",
                          "JZ", "JNZ", "JA", "JNA", "PUSH", "POP", "CALL", "RET", "AND", "OR", "XOR",
                          "SHL", "SHR", "NOT"}
    ensures ParseInstruction(keyword, k1, k2) == Err(InvalidInstruction(keyword))
    ensures Assembled(keyword, k1, k2) == Err(InvalidInstruction(keyword))
  {
  }

  /** Every SUBT form the assembler accepts becomes SUBT_NUM_FROM_REG, so
      a register, address or register-address source is read as a number;
      the forms it rejects are rejected alike. */
  lemma SubtCollapses(k1: Option<Kind>, k2: Option<Kind>)
    ensures Assembled("SUBT", k1, k2).Ok? ==> ParseInstruction("SUBT", k1, k2) == Ok(SUBT_NUM_FROM_REG)
    ensures Assembled("SUBT", k1, k2).Err? ==> ParseInstruction("SUBT", k1, k2) == Assembled("SUBT", k1, k2)
    ensures Assembled("SUBT", k1, k2).Ok? ==>
      Decode(ParseInstruction("SUBT", k1, k2).value) == Some(Arith(Sub, Num))
  {
  }

  /** `SUBT A, B`: the table gives 0x10, which the CPU runs as "subtract
      the number 1" (B's index), where the assembler gives 0x0D, "subtract
      register B". */
  lemma SubtExample()
    ensures ParseInstruction("SUBT", Some(Register), Some(Register)) == Ok(0x10)
    ensures Assembled("SUBT", Some(Register), Some(Register)) == Ok(0x0D)
    ensures Decode(0x10) == Some(Arith(Sub, Num)) && Decode(0x0D) == Some(Arith(Sub, Reg))
  {
  }

  /** DB reaches HLT's case: it yields NONE whatever its operands. */
  lemma DbIsHalt(k1: Option<Kind>, k2: Option<Kind>)
    ensures ParseInstruction("DB", k1, k2) == Ok(NONE) == ParseInstruction("HLT", k1, k2)
  {
  }

  /** The table rejects as invalid exactly the words outside the
      instruction set and MUL and DIV, which are listed without a case. */
  lemma InvalidKeywords(keyword: string, k1: Option<Kind>, k2: Option<Kind>)
    ensures ParseInstruction(keyword, k1, k2) == Err(InvalidInstruction(keyword))
        <==> Lookup(keyword).None? || keyword in {"MUL", "DIV"}
  {
    if keyword == "SUBT" {
      assert Lookup(keyword).Some?;
    } else if keyword == "DB" {
      assert Lookup(keyword).Some?;
    } else {
      ParseInstructionAgrees(keyword, k1, k2);
      InvalidMnemonics(keyword, k1, k2);
    }
  }
}
