/** The assembler's instruction set: for every mnemonic, whether it takes one
    operand or two. A mnemonic with neither flag takes none. */
module InstructionSet {
  import opened Base

  datatype Descriptor = Descriptor(unary: bool, binary: bool)

  const Nullary := Descriptor(false, false)
  const Unary := Descriptor(true, false)
  const BinaryArity := Descriptor(false, true)

  const Table: map<string, Descriptor> := map[
    "DB" := Unary,
    "HLT" := Nullary,
    "MOV" := BinaryArity,
    "ADD" := BinaryArity,
    "SUBT" := BinaryArity,
    "MUL" := Unary,
    "DIV" := Unary,
    "INC" := Unary,
    "DEC" := Unary,
    "CMP" := BinaryArity,
    "JMP" := Unary,
    "JC" := Unary,
    "JNC" := Unary,
    "JZ" := Unary,
    "JNZ" := Unary,
    "JA" := Unary,
    "JNA" := Unary,
    "PUSH" := Unary,
    "POP" := Unary,
    "CALL" := Unary,
    "RET" := Nullary,
    "AND" := BinaryArity,
    "OR" := BinaryArity,
    "XOR" := BinaryArity,
    "SHL" := BinaryArity,
    "SHR" := BinaryArity,
    "NOT" := Unary
  ]

  /** `InstructionSet[keyword]`: undefined for a keyword the table lacks. */
  function Lookup(keyword: string): Option<Descriptor> {
    if keyword in Table then Some(Table[keyword]) else None
  }

  /** The number of operands a descriptor calls for. */
  function Arity(d: Descriptor): nat {
    if d.binary then 2 else if d.unary then 1 else 0
  }

  /** No mnemonic is both unary and binary; HLT and RET take no operand, and
      the nine two-operand mnemonics are exactly MOV, ADD, SUBT, CMP, AND,
      OR, XOR, SHL and SHR. */
  lemma TableShape(keyword: string)
    ensures Lookup(keyword).Some? ==> !(Lookup(keyword).value.unary && Lookup(keyword).value.binary)
    ensures Lookup(keyword).Some? && Arity(Lookup(keyword).value) == 0 <==> keyword in {"HLT", "RET"}
    ensures Lookup(keyword).Some? && Arity(Lookup(keyword).value) == 2
        <==> keyword in {"MOV", "ADD", "SUBT", "CMP", "AND", "OR", "XOR", "SHL", "SHR"}
  {
  }

  /** Every key is written in upper case, so only an upper-cased mnemonic
      can be found. */
  lemma TableKeysUpper(keyword: string)
    ensures Lookup(keyword).Some? ==> Upper(keyword) == keyword
  {
  }
}
