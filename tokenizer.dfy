/** The tokenizer: a near-copy of the enum-tagged interpreter. Its
    `tokenize` and `interpretLine` apply the same line pattern (modelled by
    Lexer.InterpretLine), its readers are the shared ones, its `Token` tags
    are numbered from Opcode = 1, and getArguments leaves an absent operand
    undefined instead of filling in a placeholder. */
module Tokenizer {
  import opened Base
  import opened Opcodes
  import opened InstructionSet
  import opened Operands
  import opened Assembler
  import opened EnumInterpreter

  /** `Token.Opcode`. */
  const OpcodeToken: nat := 1

  /** The `Token` number of each operand kind. */
  function TokenCode(k: Kind): (c: nat)
    ensures OpcodeToken < c <= 7
  {
    match k
    case Number => 2
    case Char => 3
    case String => 4
    case Address => 5
    case Register => 6
    case RegAddress => 7
  }

  function TokenKind(code: nat): Option<Kind> {
    if code == 2 then Some(Number)
    else if code == 3 then Some(Char)
    else if code == 4 then Some(String)
    else if code == 5 then Some(Address)
    else if code == 6 then Some(Register)
    else if code == 7 then Some(RegAddress)
    else None
  }

  /** Every kind has its own token, which reads back as the kind; the
      Opcode token stands for no operand kind. */
  lemma TokenCodeRoundTrip(k: Kind)
    ensures TokenKind(TokenCode(k)) == Some(k) && TokenKind(OpcodeToken) == None
  {
  }

  /** `getValue` with Token tags. */
  function TokenGetValue(input: string): Result<TaggedValue> {
    var op :- GetValue(EnumTagged, input);
    Ok(TaggedValue(TokenCode(op.kind), op.value))
  }

  /** A present operand's token value; None is `undefined`. */
  function TokenOf(p: Option<Operand>): Option<TaggedValue> {
    if p.Some? then Some(TaggedValue(TokenCode(p.value.kind), p.value.value)) else None
  }

  /** `getArguments`: p1 and p2 are declared without a value, so an
      operand the descriptor does not call for stays undefined. */
  function TokenGetArguments(d: Option<Descriptor>, operand1: Option<string>, operand2: Option<string>)
    : Result<(Option<TaggedValue>, Option<TaggedValue>)>
  {
    match d
    case None => Ok((None, None))
    case Some(desc) =>
      if desc.unary && !desc.binary then
        if operand1.Some? && operand2.None? then
          var p1 :- TokenGetValue(operand1.value);
          Ok((Some(p1), None))
        else Err(WrongOperandCount(1))
      else if !desc.unary && desc.binary then
        if operand1.Some? && operand2.Some? then
          var p1 :- TokenGetValue(operand1.value);
          var p2 :- TokenGetValue(operand2.value);
          Ok((Some(p1), Some(p2)))
        else Err(WrongOperandCount(2))
      else if !desc.unary && !desc.binary then
        if operand1.Some? || operand2.Some? then Err(WrongOperandCount(0))
        else Ok((None, None))
      else Ok((None, None))
  }

  /** The tokenizer's getArguments is the shared one with Token tags: the
      same errors, the same operands, absent ones undefined. */
  lemma TokenGetArgumentsAgrees(d: Option<Descriptor>, operand1: Option<string>, operand2: Option<string>)
    ensures var r := TokenGetArguments(d, operand1, operand2);
      var s := GetArguments(EnumTagged, d, operand1, operand2);
      (r.Ok? <==> s.Ok?) &&
      (s.Err? ==> r.error == s.error) &&
      (s.Ok? ==> r.value == (TokenOf(s.value.0), TokenOf(s.value.1)))
  {
  }

  /** The kind a type test of the tokenizer sees: `token?.type` of an
      undefined operand matches no kind. */
  function KindSeen(p: Option<TaggedValue>): Option<Kind> {
    if p.Some? then TokenKind(p.value.tag) else None
  }

  /** The tokenizer's `parseInstruction`, the same decision table as the
      enum interpreter's. */
  function TokenParseInstruction(keyword: string, p1: Option<TaggedValue>, p2: Option<TaggedValue>): Result<byte> {
    ParseInstruction(keyword, KindSeen(p1), KindSeen(p2))
  }

  /** The tags of a classified operand are seen as its kind, in either
      copy. */
  lemma KindsSeen(p: Option<Operand>)
    ensures KindSeen(TokenOf(p)) == TagKind(Fill(p).tag) == KindOfOperand(p)
  {
    if p.Some? {
      TokenCodeRoundTrip(p.value.kind);
      TypeCodeRoundTrip(p.value.kind);
    }
  }

  /** Despite their different tags and absent operands, the two copies
      accept the same lines and choose the same opcode for them. */
  lemma CopiesAgree(keyword: string, operand1: Option<string>, operand2: Option<string>)
    ensures var t := TokenGetArguments(Lookup(keyword), operand1, operand2);
      var e := EnumGetArguments(Lookup(keyword), operand1, operand2);
      (t.Ok? <==> e.Ok?) && (t.Err? ==> t.error == e.error) &&
      (t.Ok? ==> TokenParseInstruction(keyword, t.value.0, t.value.1)
                 == ParseInstructionOf(keyword, e.value.0, e.value.1))
  {
    var s := GetArguments(EnumTagged, Lookup(keyword), operand1, operand2);
    TokenGetArgumentsAgrees(Lookup(keyword), operand1, operand2);
    EnumGetArgumentsAgrees(Lookup(keyword), operand1, operand2);
    if s.Ok? {
      KindsSeen(s.value.0);
      KindsSeen(s.value.1);
    }
  }

  /** A jump or CALL takes a number (a literal or a label) or a bracketed
      register; any other operand, an address among them, is refused. */
  lemma JumpOperands(c: Condition, p1: Option<TaggedValue>, p2: Option<TaggedValue>)
    ensures TokenParseInstruction(JumpMnemonic(c), p1, p2).Ok?
        <==> KindSeen(p1) == Some(Number) || KindSeen(p1) == Some(RegAddress)
    ensures KindSeen(p1) == Some(Address) ==>
      TokenParseInstruction(JumpMnemonic(c), p1, p2) == Err(UnsupportedOperands(JumpMnemonic(c)))
  {
    AgreeJump(c, KindSeen(p1), KindSeen(p2));
  }

  lemma CallOperands(p1: Option<TaggedValue>, p2: Option<TaggedValue>)
    ensures TokenParseInstruction("CALL", p1, p2).Ok?
        <==> KindSeen(p1) == Some(Number) || KindSeen(p1) == Some(RegAddress)
    ensures KindSeen(p1) == Some(Address) ==>
      TokenParseInstruction("CALL", p1, p2) == Err(UnsupportedOperands("CALL"))
  {
    AgreeCall(KindSeen(p1), KindSeen(p2));
  }

  /** Every SUBT form, whatever its source, is SUBT_NUM_FROM_REG; the
      first operand must be a register and the second a register, an
      address, a register address or a number. */
  lemma SubtTable(p1: Option<TaggedValue>, p2: Option<TaggedValue>)
    ensures TokenParseInstruction("SUBT", p1, p2).Ok? <==>
      KindSeen(p1) == Some(Register) && KindSeen(p2).Some? && SourceOf(KindSeen(p2).value).Some?
    ensures TokenParseInstruction("SUBT", p1, p2).Ok? ==>
      TokenParseInstruction("SUBT", p1, p2).value == SUBT_NUM_FROM_REG
  {
    SubtCollapses(KindSeen(p1), KindSeen(p2));
  }
}
