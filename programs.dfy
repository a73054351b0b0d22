/** Whole programs: source text through both assembler passes, and the
    bytes it produces run on the processor. */
module Programs {
  import opened Base
  import opened Opcodes
  import opened InstructionSet
  import opened Lexer
  import opened Operands
  import opened Assembler
  import opened MemoryUnit
  import Cpu

  /** A source without line feeds is one line. */
  lemma OneLine(s: string)
    requires forall k :: 0 <= k < |s| ==> s[k] != '\n'
    ensures SplitLines(s) == [s]
  {
  }

  /** `MOV A, 10` is read as a mnemonic and two operands, a register and a
      number. */
  lemma MovFields()
    ensures InterpretLine("MOV A, 10") == Fields(None, Some("MOV"), Some("A"), Some("10"))
  {
    var f := Fields(None, Some("MOV"), Some("A"), Some("10"));
    assert Render(f) + [] == "MOV A, 10";
    RenderRoundTrip(f, []);
  }

  lemma MovOperands()
    ensures GetValue(StringTagged, "A") == Ok(Operand(Register, Int(0)))
    ensures GetValue(StringTagged, "10") == Ok(Operand(Number, Int(10)))
    ensures GetValue(StringTagged, "0") == Ok(Operand(Number, Int(0)))
  {
    assert GetValue(StringTagged, "10") == Ok(Operand(Number, Int(10))) by {
      assert Numeral(10, 10) == "10";
      NumeralOperandAt(10);
    }
    assert GetValue(StringTagged, "0") == Ok(Operand(Number, Int(0))) by {
      assert Numeral(0, 10) == "0";
      NumeralOperandAt(0);
    }
    assert GetValue(StringTagged, "A") == Ok(Operand(Register, Int(0))) by {
      RegisterNameReads(0);
      assert RegisterName(0) == "A";
    }
  }

  /** A mnemonic without lower-case letters is its own upper case. */
  lemma UpperFixed(s: string)
    requires forall k :: 0 <= k < |s| ==> !('a' <= s[k] <= 'z')
    ensures Upper(s) == s
  {
  }

  /** A statement's cells are those of its classified operands. */
  lemma StatementFrom(keyword: string, o1: Option<string>, o2: Option<string>, args: (Option<Operand>, Option<Operand>))
    requires GetArguments(StringTagged, Lookup(Upper(keyword)), o1, o2) == Ok(args)
    ensures StatementCells(keyword, o1, o2) == EmitInstruction(Upper(keyword), args.0, args.1)
  {
  }

  /** An analysed line is its label and its statement's cells. */
  lemma LineFrom(line: string, f: Fields)
    requires InterpretLine(line) == f && f.instruction.Some?
    ensures AnalyseLine(line) == LineInfo(f.labelName, Some(StatementCells(f.instruction.value, f.operand1, f.operand2)))
  {
  }

  lemma UpperMov()
    ensures Upper("MOV") == "MOV"
  {
    UpperFixed("MOV");
  }

  lemma MovArguments()
    ensures GetArguments(StringTagged, Lookup("MOV"), Some("A"), Some("10")) == Ok((Some(Operand(Register, Int(0))), Some(Operand(Number, Int(10)))))
  {
    MovOperands();
    assert Lookup("MOV") == Some(BinaryArity);
  }

  lemma MovSelect()
    ensures SelectInstr("MOV", Some(Register), Some(Number)) == Ok(Mov(NumToReg))
  {
  }

  lemma MovEmit()
    ensures EmitInstruction("MOV", Some(Operand(Register, Int(0))), Some(Operand(Number, Int(10))))
         == Ok([Value(MOV_NUM_TO_REG), Value(0), Value(10)])
  {
    MovSelect();
    var cells := [Value(Encode(Mov(NumToReg)))] + [Value(0)] + [Value(10)];
    assert cells == [Value(MOV_NUM_TO_REG), Value(0), Value(10)];
  }

  /** The line assembles to MOV_NUM_TO_REG, register 0 and the number. */
  lemma MovLine()
    ensures AnalyseLine("MOV A, 10") == LineInfo(None, Some(Ok(Cells([MOV_NUM_TO_REG as int, 0, 10]))))
  {
    assert AnalyseLine("MOV A, 10") == LineInfo(None, Some(StatementCells("MOV", Some("A"), Some("10")))) by {
      MovFields();
      LineFrom("MOV A, 10", Fields(None, Some("MOV"), Some("A"), Some("10")));
    }
    UpperMov();
    MovArguments();
    StatementFrom("MOV", Some("A"), Some("10"), (Some(Operand(Register, Int(0))), Some(Operand(Number, Int(10)))));
    MovEmit();
    MovCells();
  }

  lemma MovCells()
    ensures Cells([MOV_NUM_TO_REG as int, 0, 10]) == [Value(MOV_NUM_TO_REG), Value(0), Value(10)]
  {
  }

  /** The cells of a one-line source. */
  lemma SingleLinePass(line: string, cells: seq<Slot>)
    requires forall k :: 0 <= k < |line| ==> line[k] != '\n'
    requires AnalyseLine(line) == LineInfo(None, Some(Ok(cells)))
    ensures var infos := AnalyseLines(SplitLines(line));
      Pass1(infos, |infos|) == Ok(Image(cells, map[], map[0 := 0]))
  {
    OneLine(line);
    var infos := AnalyseLines(SplitLines(line));
    assert infos == [AnalyseLine(line)];
    UnlabelledPass(infos, cells);
  }

  /** The first pass over one unlabelled statement. */
  lemma {:induction false} UnlabelledPass(infos: seq<LineInfo>, cells: seq<Slot>)
    requires |infos| == 1 && infos[0] == LineInfo(None, Some(Ok(cells)))
    ensures Pass1(infos, 1) == Ok(Image(cells, map[], map[0 := 0]))
  {
    assert Pass1(infos, 0) == Ok(EmptyImage);
    assert LineStep(EmptyImage, 0, infos[0]) == Ok(Image([] + cells, map[], map[][0 := 0]));
    assert [] + cells == cells;
  }

  /** The cells holding the given values. */
  function Cells(values: seq<int>): (cells: seq<Slot>)
    ensures |cells| == |values|
    ensures forall k :: 0 <= k < |values| ==> cells[k] == Value(values[k])
  {
    seq(|values|, k requires 0 <= k < |values| => Value(values[k]))
  }

  /** Code without names resolves to its values. */
  lemma {:induction false} ResolveValues(values: seq<int>, labels: map<string, int>)
    ensures Resolve(Cells(values), labels) == Ok(values)
    decreases |values|
  {
    if values != [] {
      ResolveValues(values[1..], labels);
      assert Cells(values)[1..] == Cells(values[1..]);
      assert values == [values[0]] + values[1..];
    }
  }

  /** A one-line source without labels or names assembles to the values
      of its cells. */
  lemma SingleLineProgram(line: string, values: seq<int>)
    requires forall k :: 0 <= k < |line| ==> line[k] != '\n'
    requires AnalyseLine(line) == LineInfo(None, Some(Ok(Cells(values))))
    ensures AssembleSpec(line) == Ok(Program(values, map[], map[0 := 0]))
  {
    SingleLinePass(line, Cells(values));
    ResolveValues(values, map[]);
  }

  /** The one-line sources below hold no line feed. */
  lemma SingleLines()
    ensures forall k :: 0 <= k < |"MOV A, 10"| ==> "MOV A, 10"[k] != '\n'
    ensures forall k :: 0 <= k < |"MOV 0, A"| ==> "MOV 0, A"[k] != '\n'
    ensures forall k :: 0 <= k < |"MOV A"| ==> "MOV A"[k] != '\n'
  {
  }

  /** `MOV A, 10` assembles to MOV_NUM_TO_REG, register A and 10, with no
      labels and the one line at offset 0. */
  lemma MovProgram()
    ensures AssembleSpec("MOV A, 10") == Ok(Program([MOV_NUM_TO_REG as int, 0, 10], map[], map[0 := 0]))
  {
    SingleLines();
    MovLine();
    SingleLineProgram("MOV A, 10", [MOV_NUM_TO_REG as int, 0, 10]);
  }

  /** Memory holding the given bytes from address 0, the rest zero, as
      writing them one by one into a reset memory leaves it. */
  function Loaded(code: seq<byte>): (cells: seq<byte>)
    requires |code| <= Capacity
    ensures |cells| == Capacity && cells[..|code|] == code
    ensures forall k :: |code| <= k < Capacity ==> cells[k] == 0
  {
    code + seq(Capacity - |code|, _ => 0)
  }

  /** After reset, the fetch of the assembled MOV loads its opcode and one
      execute writes 10 to register A and moves PC past the three bytes;
      nothing else changes and the machine runs on. */
  lemma MovRuns()
    ensures var m := Cpu.PowerOn(Loaded([MOV_NUM_TO_REG, 0, 10]));
      && Cpu.FetchSpec(m) == Ok(m.(ir := MOV_NUM_TO_REG))
      && Cpu.Step(m.(ir := MOV_NUM_TO_REG)) == Ok((m.(ir := MOV_NUM_TO_REG, pc := 3, gpr := [10, 0, 0, 0]), true))
  {
    var cells := Loaded([MOV_NUM_TO_REG, 0, 10]);
    assert cells[0] == MOV_NUM_TO_REG && cells[1] == 0 && cells[2] == 10;
    var m := Cpu.PowerOn(cells).(ir := MOV_NUM_TO_REG);
    assert Decode(MOV_NUM_TO_REG) == Some(Mov(NumToReg));
    assert Cpu.Operand(m, 1) == Ok(0);
    assert Cpu.SingleOperand(Num, m.(pc := 1)) == Ok(10);
    assert Cpu.LoadOperands(Num, m) == Ok((0, 10));
    assert m.gpr[0 := 10] == [10, 0, 0, 0];
    assert Cpu.RunMov(NumToReg, m) == Ok(m.(pc := 3, gpr := [10, 0, 0, 0]));
  }

  // ---------------------------------------------------------------------
  // A labelled string and a reference to it.

  /** Two lines joined by a line feed are split apart again. */
  lemma TwoLines(a: string, b: string)
    requires forall k :: 0 <= k < |a| ==> a[k] != '\n'
    requires forall k :: 0 <= k < |b| ==> b[k] != '\n'
    ensures SplitLines(a + "\n" + b) == [a, b]
  {
    var s := a + "\n" + b;
    assert s[|a|] == '\n';
    assert LineEnd(s, 0) == |a|;
    assert s[..|a|] == a && s[|a| + 1..] == b;
    OneLine(b);
  }

  lemma StringFields()
    ensures InterpretLine("x: DB \"mango\"") == Fields(Some("x"), Some("DB"), Some("\"mango\""), None)
  {
    var f := Fields(Some("x"), Some("DB"), Some("\"mango\""), None);
    assert Render(f) + [] == "x: DB \"mango\"";
    RenderRoundTrip(f, []);
  }

  const Mango: seq<int> := [109, 97, 110, 103, 111]

  lemma StringArguments()
    ensures GetArguments(StringTagged, Lookup("DB"), Some("\"mango\""), None) == Ok((Some(Operand(String, Codes(Mango))), None))
  {
    assert Inner("\"mango\"") == "mango";
    assert CharCodes("mango") == Mango;
    assert Lookup("DB") == Some(Unary);
  }

  lemma UpperDb()
    ensures Upper("DB") == "DB"
  {
    UpperFixed("DB");
  }

  /** DB of a string emits one cell per character code. */
  lemma StringLine()
    ensures AnalyseLine("x: DB \"mango\"") == LineInfo(Some("x"), Some(Ok(Cells(Mango))))
  {
    assert AnalyseLine("x: DB \"mango\"") == LineInfo(Some("x"), Some(StatementCells("DB", Some("\"mango\""), None))) by {
      StringFields();
      LineFrom("x: DB \"mango\"", Fields(Some("x"), Some("DB"), Some("\"mango\""), None));
    }
    UpperDb();
    StringArguments();
    StatementFrom("DB", Some("\"mango\""), None, (Some(Operand(String, Codes(Mango))), None));
    StringEmit();
  }

  lemma StringEmit()
    ensures EmitInstruction("DB", Some(Operand(String, Codes(Mango))), None) == Ok(Cells(Mango))
  {
  }

  lemma ReferenceFields()
    ensures InterpretLine("MOV C, x") == Fields(None, Some("MOV"), Some("C"), Some("x"))
  {
    var f := Fields(None, Some("MOV"), Some("C"), Some("x"));
    assert Render(f) + [] == "MOV C, x";
    RenderRoundTrip(f, []);
  }

  lemma ReferenceArguments()
    ensures GetArguments(StringTagged, Lookup("MOV"), Some("C"), Some("x")) == Ok((Some(Operand(Register, Int(2))), Some(Operand(Number, Name("x")))))
  {
    assert Lookup("MOV") == Some(BinaryArity);
    GetValueBareExamples(StringTagged);
    assert ParseRegister("C") == Some(2);
  }

  /** A label used as a number is kept as its name. */
  lemma ReferenceLine()
    ensures AnalyseLine("MOV C, x") == LineInfo(None, Some(Ok([Value(MOV_NUM_TO_REG), Value(2), Pending("x")])))
  {
    assert AnalyseLine("MOV C, x") == LineInfo(None, Some(StatementCells("MOV", Some("C"), Some("x")))) by {
      ReferenceFields();
      LineFrom("MOV C, x", Fields(None, Some("MOV"), Some("C"), Some("x")));
    }
    UpperMov();
    ReferenceArguments();
    StatementFrom("MOV", Some("C"), Some("x"), (Some(Operand(Register, Int(2))), Some(Operand(Number, Name("x")))));
    ReferenceEmit();
  }

  lemma ReferenceEmit()
    ensures EmitInstruction("MOV", Some(Operand(Register, Int(2))), Some(Operand(Number, Name("x"))))
         == Ok([Value(MOV_NUM_TO_REG), Value(2), Pending("x")])
  {
    MovSelect();
    var cells := [Value(Encode(Mov(NumToReg)))] + [Value(2)] + [Pending("x")];
    assert cells == [Value(MOV_NUM_TO_REG), Value(2), Pending("x")];
  }

  const Reference: seq<Slot> := [Value(MOV_NUM_TO_REG), Value(2), Pending("x")]

  /** The first pass binds x to offset 0, records the lines at offsets 0
      and 5, and keeps the reference as a name. */
  lemma {:induction false} MangoPass(infos: seq<LineInfo>)
    requires |infos| == 2
    requires infos[0] == LineInfo(Some("x"), Some(Ok(Cells(Mango))))
    requires infos[1] == LineInfo(None, Some(Ok(Reference)))
    ensures Pass1(infos, 2) == Ok(Image(Cells(Mango) + Reference, map["x" := 0], map[0 := 0, 5 := 1]))
  {
    assert Pass1(infos, 0) == Ok(EmptyImage);
    var labelled := Image([], map["x" := 0], map[]);
    assert AddLabelSpec(EmptyImage, "x") == Ok(labelled) by {
      assert Upper("x") == "X";
    }
    var first := Image([] + Cells(Mango), map["x" := 0], map[0 := 0]);
    assert Pass1(infos, 1) == Ok(first);
    assert |first.code| == 5;
    assert Pass1(infos, 2) == Ok(Image(first.code + Reference, map["x" := 0], first.mapping[5 := 1]));
    assert [] + Cells(Mango) == Cells(Mango);
  }

  /** The second pass replaces x by its offset 0. */
  lemma MangoResolve()
    ensures Resolve(Cells(Mango) + Reference, map["x" := 0]) == Ok(Mango + [MOV_NUM_TO_REG as int, 2, 0])
  {
    var code := Cells(Mango) + Reference;
    var labels := map["x" := 0];
    assert forall k :: 0 <= k < |code| ==> ResolveSlot(code[k], labels).Ok?;
    ResolveAll(code, labels);
    var r := Resolve(code, labels).value;
    assert r == Mango + [MOV_NUM_TO_REG as int, 2, 0] by {
      assert forall k :: 0 <= k < 5 ==> r[k] == Mango[k];
      assert r[5] == MOV_NUM_TO_REG as int && r[6] == 2 && r[7] == 0;
    }
  }

  const MangoSource: string := "x: DB \"mango\"\nMOV C, x"

  lemma MangoLines()
    ensures SplitLines(MangoSource) == ["x: DB \"mango\"", "MOV C, x"]
  {
    var a := "x: DB \"mango\"";
    var b := "MOV C, x";
    assert MangoSource == a + "\n" + b;
    TwoLines(a, b);
  }

  lemma TwoAnalysed(a: string, b: string)
    ensures AnalyseLines([a, b]) == [AnalyseLine(a), AnalyseLine(b)]
  {
    assert [a, b][..1] == [a];
  }

  /** The assembly of a source, from its analysed lines and both passes. */
  lemma ProgramFrom(src: string, infos: seq<LineInfo>, img: Image, bytes: seq<int>)
    requires AnalyseLines(SplitLines(src)) == infos
    requires Pass1(infos, |infos|) == Ok(img) && Resolve(img.code, img.labels) == Ok(bytes)
    ensures AssembleSpec(src) == Ok(Program(bytes, img.labels, img.mapping))
  {
  }

  /** A string bound to a label and a MOV of the label's offset: the string's
      character codes, then MOV_NUM_TO_REG, register C and offset 0. */
  lemma MangoProgram()
    ensures AssembleSpec(MangoSource)
         == Ok(Program([109, 97, 110, 103, 111, MOV_NUM_TO_REG as int, 2, 0], map["x" := 0], map[0 := 0, 5 := 1]))
  {
    var a := "x: DB \"mango\"";
    var b := "MOV C, x";
    MangoLines();
    TwoAnalysed(a, b);
    StringLine();
    ReferenceLine();
    var infos := [AnalyseLine(a), AnalyseLine(b)];
    MangoPass(infos);
    MangoResolve();
    var img := Image(Cells(Mango) + Reference, map["x" := 0], map[0 := 0, 5 := 1]);
    ProgramFrom(MangoSource, infos, img, Mango + [MOV_NUM_TO_REG as int, 2, 0]);
    MangoBytes();
  }

  lemma MangoBytes()
    ensures Mango + [MOV_NUM_TO_REG as int, 2, 0] == [109, 97, 110, 103, 111, MOV_NUM_TO_REG as int, 2, 0]
  {
  }

  // ---------------------------------------------------------------------
  // Lines the assembler refuses.

  /** A one-line source whose statement fails is refused with that error. */
  lemma SingleLineError(line: string, e: Error)
    requires forall k :: 0 <= k < |line| ==> line[k] != '\n'
    requires AnalyseLine(line) == LineInfo(None, Some(Err(e)))
    ensures AssembleSpec(line) == Err(e)
  {
    OneLine(line);
    var infos := AnalyseLines(SplitLines(line));
    assert infos == [AnalyseLine(line)];
    assert Pass1(infos, 1) == LineStep(EmptyImage, 0, infos[0]);
  }

  lemma ImmediateTargetFields()
    ensures InterpretLine("MOV 0, A") == Fields(None, Some("MOV"), Some("0"), Some("A"))
  {
    var f := Fields(None, Some("MOV"), Some("0"), Some("A"));
    assert Render(f) + [] == "MOV 0, A";
    RenderRoundTrip(f, []);
  }

  lemma ImmediateTargetArguments()
    ensures GetArguments(StringTagged, Lookup("MOV"), Some("0"), Some("A")) == Ok((Some(Operand(Number, Int(0))), Some(Operand(Register, Int(0)))))
  {
    assert Lookup("MOV") == Some(BinaryArity);
    MovOperands();
  }

  lemma ImmediateTargetEmit()
    ensures EmitInstruction("MOV", Some(Operand(Number, Int(0))), Some(Operand(Register, Int(0)))) == Err(UnsupportedOperands("MOV"))
  {
  }

  /** A number cannot receive a value: `MOV 0, A` is refused. */
  lemma ImmediateTargetRefused()
    ensures AssembleSpec("MOV 0, A") == Err(UnsupportedOperands("MOV"))
  {
    assert AnalyseLine("MOV 0, A") == LineInfo(None, Some(StatementCells("MOV", Some("0"), Some("A")))) by {
      ImmediateTargetFields();
      LineFrom("MOV 0, A", Fields(None, Some("MOV"), Some("0"), Some("A")));
    }
    UpperMov();
    ImmediateTargetArguments();
    StatementFrom("MOV", Some("0"), Some("A"), (Some(Operand(Number, Int(0))), Some(Operand(Register, Int(0)))));
    ImmediateTargetEmit();
    SingleLines();
    SingleLineError("MOV 0, A", UnsupportedOperands("MOV"));
  }

  lemma MissingOperandFields()
    ensures InterpretLine("MOV A") == Fields(None, Some("MOV"), Some("A"), None)
  {
    var f := Fields(None, Some("MOV"), Some("A"), None);
    assert Render(f) + [] == "MOV A";
    RenderRoundTrip(f, []);
  }

  lemma MissingOperandCount()
    ensures StatementCells("MOV", Some("A"), None) == Err(WrongOperandCount(2))
  {
    UpperMov();
    assert Lookup("MOV") == Some(BinaryArity);
  }

  /** MOV takes two operands: `MOV A` is refused before its operand is
      read. */
  lemma MissingOperandRefused()
    ensures AssembleSpec("MOV A") == Err(WrongOperandCount(2))
  {
    assert AnalyseLine("MOV A") == LineInfo(None, Some(StatementCells("MOV", Some("A"), None))) by {
      MissingOperandFields();
      LineFrom("MOV A", Fields(None, Some("MOV"), Some("A"), None));
    }
    UpperMov();
    MissingOperandCount();
    SingleLines();
    SingleLineError("MOV A", WrongOperandCount(2));
  }

  // ---------------------------------------------------------------------
  // A jump to a label bound after the last instruction, as the repository
  // writes it: an opening line feed, indented lines, and the label alone
  // on the last line.

  const Indent: string := "      "
  const LabelJumpSource: string := "\n      JMP start\n      HLT\n      start:"

  /** A line without line feeds, then a line feed, is split off first. */
  lemma LineThen(a: string, rest: string)
    requires forall k :: 0 <= k < |a| ==> a[k] != '\n'
    ensures SplitLines(a + "\n" + rest) == [a] + SplitLines(rest)
  {
    var s := a + "\n" + rest;
    assert s[|a|] == '\n';
    assert LineEnd(s, 0) == |a|;
    assert s[..|a|] == a && s[|a| + 1..] == rest;
  }

  const JumpLine: string := Indent + "JMP start"
  const HaltLine: string := Indent + "HLT"
  const LabelLine: string := Indent + "start:"

  lemma LabelJumpText()
    ensures LabelJumpSource == "" + "\n" + (JumpLine + "\n" + (HaltLine + "\n" + LabelLine))
  {
  }

  lemma LabelJumpNoFeeds()
    ensures forall k :: 0 <= k < |JumpLine| ==> JumpLine[k] != '\n'
    ensures forall k :: 0 <= k < |HaltLine| ==> HaltLine[k] != '\n'
    ensures forall k :: 0 <= k < |LabelLine| ==> LabelLine[k] != '\n'
  {
  }

  /** Four lines joined by line feeds are split apart again. */
  lemma FourLines(a: string, b: string, c: string, d: string)
    requires forall k :: 0 <= k < |a| ==> a[k] != '\n'
    requires forall k :: 0 <= k < |b| ==> b[k] != '\n'
    requires forall k :: 0 <= k < |c| ==> c[k] != '\n'
    requires forall k :: 0 <= k < |d| ==> d[k] != '\n'
    ensures SplitLines(a + "\n" + (b + "\n" + (c + "\n" + d))) == [a, b, c, d]
  {
    TwoLines(c, d);
    LineThen(b, c + "\n" + d);
    LineThen(a, b + "\n" + (c + "\n" + d));
  }

  lemma LabelJumpLines()
    ensures SplitLines(LabelJumpSource) == ["", JumpLine, HaltLine, LabelLine]
  {
    LabelJumpNoFeeds();
    LabelJumpText();
    FourLines("", JumpLine, HaltLine, LabelLine);
  }

  lemma IndentIsSpace()
    ensures forall k :: 0 <= k < |Indent| ==> IsSpace(Indent[k])
  {
  }

  lemma JumpFields()
    ensures InterpretLine(JumpLine) == Fields(None, Some("JMP"), Some("start"), None)
  {
    var f := Fields(None, Some("JMP"), Some("start"), None);
    assert Indent + Render(f) + [] == JumpLine;
    IndentIsSpace();
    IndentedStatementRoundTrip(Indent, f, []);
  }

  lemma HaltFields()
    ensures InterpretLine(HaltLine) == Fields(None, Some("HLT"), None, None)
  {
    var g := Fields(None, Some("HLT"), None, None);
    assert Indent + Render(g) + [] == HaltLine;
    IndentIsSpace();
    IndentedStatementRoundTrip(Indent, g, []);
  }

  lemma LabelFields()
    ensures InterpretLine(LabelLine) == Fields(Some("start"), None, None, None)
  {
    IndentIsSpace();
    assert IsIdentifier("start");
    assert Indent + "start" + ":" == LabelLine;
    IndentedLabelLine(Indent, "start");
  }

  lemma LabelOperand()
    ensures GetValue(StringTagged, "start") == Ok(Operand(Number, Name("start")))
  {
    assert ParseRegister("start") == None && ParseLabel("start") == Some("start") by {
      assert Upper("start") == "START";
    }
  }

  lemma JumpStatement()
    ensures StatementCells("JMP", Some("start"), None) == Ok([Value(JMP_ADDR), Pending("start")])
  {
    UpperFixed("JMP");
    assert Lookup("JMP") == Some(Unary);
    LabelOperand();
    assert SelectInstr("JMP", Some(Number), None) == Ok(Jump(Always, Direct));
    var cells := [Value(Encode(Jump(Always, Direct)))] + [Pending("start")] + [];
    assert cells == [Value(JMP_ADDR), Pending("start")];
  }

  lemma HaltStatement()
    ensures StatementCells("HLT", None, None) == Ok([Value(NONE)])
  {
    UpperFixed("HLT");
    assert Lookup("HLT") == Some(Nullary);
    assert SelectInstr("HLT", None, None) == Ok(Halt);
    var cells: seq<Slot> := [Value(Encode(Halt))] + [] + [];
    assert cells == [Value(NONE)];
  }

  /** The empty first line and the label line emit nothing; the jump's
      destination is a name until the second pass. */
  lemma LabelJumpAnalysed()
    ensures AnalyseLine("") == LineInfo(None, None)
    ensures AnalyseLine(JumpLine) == LineInfo(None, Some(Ok([Value(JMP_ADDR), Pending("start")])))
    ensures AnalyseLine(HaltLine) == LineInfo(None, Some(Ok([Value(NONE)])))
    ensures AnalyseLine(LabelLine) == LineInfo(Some("start"), None)
  {
    EmptyLineExample();
    JumpFields();
    JumpStatement();
    HaltFields();
    HaltStatement();
    LabelFields();
  }

  lemma FourAnalysed(a: string, b: string, c: string, d: string)
    ensures AnalyseLines([a, b, c, d]) == [AnalyseLine(a), AnalyseLine(b), AnalyseLine(c), AnalyseLine(d)]
  {
    assert [a, b, c, d][..3] == [a, b, c];
    assert [a, b, c][..2] == [a, b];
    TwoAnalysed(a, b);
  }

  lemma {:induction false} LabelJumpPass(infos: seq<LineInfo>)
    requires |infos| == 4
    requires infos[0] == LineInfo(None, None)
    requires infos[1] == LineInfo(None, Some(Ok([Value(JMP_ADDR), Pending("start")])))
    requires infos[2] == LineInfo(None, Some(Ok([Value(NONE)])))
    requires infos[3] == LineInfo(Some("start"), None)
    ensures Pass1(infos, 4) == Ok(Image([Value(JMP_ADDR), Pending("start"), Value(NONE)], map["start" := 3], map[0 := 1, 2 := 2]))
  {
    assert Pass1(infos, 0) == Ok(EmptyImage);
    assert Pass1(infos, 1) == Ok(EmptyImage);
    var jump := Image([] + [Value(JMP_ADDR), Pending("start")], map[], map[0 := 1]);
    assert Pass1(infos, 2) == Ok(jump);
    var halt := Image(jump.code + [Value(NONE)], map[], jump.mapping[2 := 2]);
    assert Pass1(infos, 3) == Ok(halt);
    assert AddLabelSpec(halt, "start") == Ok(halt.(labels := map["start" := 3])) by {
      assert Upper("start") == "START";
    }
    assert halt.code == [Value(JMP_ADDR), Pending("start"), Value(NONE)];
  }

  lemma LabelJumpResolve()
    ensures Resolve([Value(JMP_ADDR), Pending("start"), Value(NONE)], map["start" := 3]) == Ok([JMP_ADDR as int, 3, NONE as int])
  {
    var code := [Value(JMP_ADDR), Pending("start"), Value(NONE)];
    var labels := map["start" := 3];
    assert forall k :: 0 <= k < |code| ==> ResolveSlot(code[k], labels).Ok?;
    ResolveAll(code, labels);
    var r := Resolve(code, labels).value;
    assert r == [JMP_ADDR as int, 3, NONE as int] by {
      assert r[0] == JMP_ADDR as int && r[1] == 3 && r[2] == NONE as int;
    }
  }

  lemma LabelJumpInfos()
    ensures AnalyseLines(SplitLines(LabelJumpSource))
         == [LineInfo(None, None), LineInfo(None, Some(Ok([Value(JMP_ADDR), Pending("start")]))),
             LineInfo(None, Some(Ok([Value(NONE)]))), LineInfo(Some("start"), None)]
  {
    LabelJumpLines();
    FourAnalysed("", JumpLine, HaltLine, LabelLine);
    LabelJumpAnalysed();
  }

  /** The label is bound on the last line, after the jump that uses it: the
      first pass keeps the name, and the second fills in its offset, 3, just
      past the HLT. Lines 1 and 2 start at offsets 0 and 2. */
  lemma LabelJumpProgram()
    ensures AssembleSpec(LabelJumpSource) == Ok(Program([JMP_ADDR as int, 3, NONE as int], map["start" := 3], map[0 := 1, 2 := 2]))
  {
    var infos := [LineInfo(None, None), LineInfo(None, Some(Ok([Value(JMP_ADDR), Pending("start")]))),
                  LineInfo(None, Some(Ok([Value(NONE)]))), LineInfo(Some("start"), None)];
    LabelJumpInfos();
    var img := Image([Value(JMP_ADDR), Pending("start"), Value(NONE)], map["start" := 3], map[0 := 1, 2 := 2]);
    LabelJumpPass(infos);
    LabelJumpResolve();
    ProgramFrom(LabelJumpSource, infos, img, [JMP_ADDR as int, 3, NONE as int]);
  }

  /** Run from reset, the jump skips the HLT and lands on offset 3, past the
      code, where the zero cell is HLT's opcode: the machine stops with PC 3. */
  lemma LabelJumpRuns()
    ensures var m := Cpu.PowerOn(Loaded([JMP_ADDR, 3, NONE]));
      && Cpu.FetchSpec(m) == Ok(m.(ir := JMP_ADDR))
      && Cpu.Step(m.(ir := JMP_ADDR)) == Ok((m.(ir := JMP_ADDR, pc := 3), true))
      && Cpu.FetchSpec(m.(pc := 3)) == Ok(m.(pc := 3, ir := NONE))
      && Cpu.Step(m.(pc := 3, ir := NONE)) == Ok((m.(pc := 3, ir := NONE, halt := true), false))
  {
    var cells := Loaded([JMP_ADDR, 3, NONE]);
    assert cells[0] == JMP_ADDR && cells[1] == 3 && cells[3] == NONE;
    var m := Cpu.PowerOn(cells);
    assert Decode(JMP_ADDR) == Some(Jump(Always, Direct));
    assert Cpu.SingleOperand(Num, m.(ir := JMP_ADDR)) == Ok(3);
    Cpu.HaltStops(m.(pc := 3, ir := NONE));
  }
}
