/** Values shared by every stage of the emulator: bytes, error kinds and the
    failure-compatible result types that stand for the source's exceptions. */
module Base {

  /** One memory cell, register value or operand byte. */
  type byte = x: int | 0 <= x < 256

  /** The error kinds the source raises (its exception messages are not modelled). */
  datatype Error =
    | AccessViolation(addr: int)          // memory: address outside [0, 256)
    | InvalidNumberFormat(token: string)  // parseNumber: no recognised literal shape
    | NumberTooHigh(value: int)           // parseNumber: value outside [0, 255]
    | CharConstantTooLong                 // getValue: 'ab'
    | EmptyCharConstant                   // getValue: '' (the source yields NaN)
    | WrongOperandCount(expected: nat)    // getArguments: arity mismatch
    | DuplicateLabel(name: string)
    | LabelIsKeyword(name: string)
    | UnsupportedOperands(mnemonic: string)
    | InvalidInstruction(mnemonic: string)
    | UndefinedLabel(name: string)
    | InvalidOpcode(code: int)            // CPU: no case for the IR value
    | BadRegister(index: int)             // CPU: register operand outside A..D

  datatype Option<+T> = None | Some(value: T)

  datatype Result<+T> = Ok(value: T) | Err(error: Error) {
    predicate IsFailure() { Err? }
    function PropagateFailure<U>(): Result<U> requires Err? { Err(error) }
    function Extract(): T requires Ok? { value }
  }

  datatype Outcome = Pass | Fail(error: Error) {
    predicate IsFailure() { Fail? }
    function PropagateFailure<U>(): Result<U> requires Fail? { Err(error) }
    function Extract(): () requires Pass? { () }
  }

  /** JavaScript's `toUpperCase` restricted to ASCII letters. */
  function UpperChar(c: char): char {
    if 'a' <= c <= 'z' then (c as int - 32) as char else c
  }

  function Upper(s: string): (u: string)
    ensures |u| == |s|
    ensures forall i :: 0 <= i < |s| ==> u[i] == UpperChar(s[i])
  {
    seq(|s|, i requires 0 <= i < |s| => UpperChar(s[i]))
  }
}
