/** The line lexer shared by the three operand-classifier copies: a
    hand-written scanner that splits one source line into its optional
    label, mnemonic and two operand tokens, with the token shapes and the
    leftmost, greedy/lazy choices of the line pattern they all use. Text after
    the second operand (such as a `;comment`) is ignored. */
module Lexer {
  import opened Base

  predicate IsLetter(c: char) { 'A' <= c <= 'Z' || 'a' <= c <= 'z' }
  predicate IsDigit(c: char) { '0' <= c <= '9' }

  /** `\w` */
  predicate IsWordChar(c: char) { IsLetter(c) || IsDigit(c) || c == '_' }

  /** `\s`: white space and line terminators as JavaScript patterns define them. */
  predicate IsSpace(c: char) {
    c == ' ' || '\t' <= c <= '\r'
    || c as int == 0xA0 || c as int == 0x1680 || 0x2000 <= c as int <= 0x200A
    || c as int == 0x2028 || c as int == 0x2029 || c as int == 0x202F
    || c as int == 0x205F || c as int == 0x3000 || c as int == 0xFEFF
  }

  /** The characters `.` does not match. */
  predicate IsLineTerminator(c: char) {
    c == '\n' || c == '\r' || c as int == 0x2028 || c as int == 0x2029
  }

  /** The first character of a bare operand: `[$A-Za-z0-9]`. */
  predicate IsBareStart(c: char) { c == '$' || IsLetter(c) || IsDigit(c) }

  /** The sign of a bracketed offset. The first operand's class `[\+|-]` also
      admits `|`; the second operand's group `(\+|-)` does not. */
  predicate IsOffsetSign(c: char, second: bool) {
    c == '+' || c == '-' || (!second && c == '|')
  }

  // ---------------------------------------------------------------------
  // Maximal runs. Each scanner returns the end of the longest run starting
  // at i; the ensures clauses characterise that end completely.

  function SkipSpace(s: string, i: nat): (e: nat)
    requires i <= |s|
    ensures i <= e <= |s|
    ensures forall k :: i <= k < e ==> IsSpace(s[k])
    ensures e == |s| || !IsSpace(s[e])
    decreases |s| - i
  {
    if i < |s| && IsSpace(s[i]) then SkipSpace(s, i + 1) else i
  }

  function WordEnd(s: string, i: nat): (e: nat)
    requires i <= |s|
    ensures i <= e <= |s|
    ensures forall k :: i <= k < e ==> IsWordChar(s[k])
    ensures e == |s| || !IsWordChar(s[e])
    decreases |s| - i
  {
    if i < |s| && IsWordChar(s[i]) then WordEnd(s, i + 1) else i
  }

  function DigitEnd(s: string, i: nat): (e: nat)
    requires i <= |s|
    ensures i <= e <= |s|
    ensures forall k :: i <= k < e ==> IsDigit(s[k])
    ensures e == |s| || !IsDigit(s[e])
    decreases |s| - i
  {
    if i < |s| && IsDigit(s[i]) then DigitEnd(s, i + 1) else i
  }

  /** The lazy `.+?` followed by the quote q, once its first character has
      been taken: the first q at or after j, unless a line terminator comes
      before it. */
  function ClosingQuote(s: string, q: char, j: nat): (r: Option<nat>)
    requires j <= |s|
    requires !IsLineTerminator(q)
    ensures r.Some? ==> j <= r.value < |s| && s[r.value] == q
    ensures r.Some? ==> forall k :: j <= k < r.value ==> s[k] != q && !IsLineTerminator(s[k])
    decreases |s| - j
  {
    if j == |s| then None
    else if s[j] == q then Some(j)
    else if IsLineTerminator(s[j]) then None
    else ClosingQuote(s, q, j + 1)
  }

  // ---------------------------------------------------------------------
  // The parts of a line. Each returns the position after the part it
  // recognises at i, or i itself when the part is absent.

  /** `([A-Za-z]\w*)[:]` */
  function LabelEnd(s: string, i: nat): (e: nat)
    requires i <= |s|
    ensures i <= e <= |s|
    ensures e > i ==> e >= i + 2 && IsLetter(s[i]) && s[e - 1] == ':'
    ensures e > i ==> forall k :: i < k < e - 1 ==> IsWordChar(s[k])
  {
    if i < |s| && IsLetter(s[i]) then
      var w := WordEnd(s, i + 1);
      if w < |s| && s[w] == ':' then w + 1 else i
    else i
  }

  /** `\[\w+(?:[sign]\d+)?\]` */
  function BracketEnd(s: string, i: nat, second: bool): (e: nat)
    requires i < |s| && s[i] == '['
    ensures e == i || (i + 3 <= e <= |s| && s[e - 1] == ']')
  {
    var w := WordEnd(s, i + 1);
    if w == i + 1 then i
    else
      var o := if w + 1 < |s| && IsOffsetSign(s[w], second) && DigitEnd(s, w + 1) > w + 1
               then DigitEnd(s, w + 1) else w;
      if o < |s| && s[o] == ']' then o + 1 else i
  }

  /** `\".+?\"` and `\'.+?\'` */
  function QuotedEnd(s: string, i: nat): (e: nat)
    requires i < |s| && (s[i] == '"' || s[i] == '\'')
    ensures e == i || (i + 3 <= e <= |s| && s[e - 1] == s[i])
  {
    if i + 1 < |s| && !IsLineTerminator(s[i + 1]) then
      match ClosingQuote(s, s[i], i + 2)
      case Some(k) => k + 1
      case None => i
    else i
  }

  /** One operand token: the first alternative that matches, tried in the
      order bracket, double quote, single quote, bare word. */
  function OperandEnd(s: string, i: nat, second: bool): (e: nat)
    requires i <= |s|
    ensures i <= e <= |s|
  {
    if i == |s| then i
    else if s[i] == '[' then BracketEnd(s, i, second)
    else if s[i] == '"' || s[i] == '\'' then QuotedEnd(s, i)
    else if IsBareStart(s[i]) then WordEnd(s, i + 1)
    else i
  }

  /** The four capture groups the assembler reads; an absent group is None. */
  datatype Fields = Fields(labelName: Option<string>, instruction: Option<string>,
                           operand1: Option<string>, operand2: Option<string>)

  /** `interpretLine`: the line pattern applied at the start of the line. Every
      part is optional and the pattern has no end anchor, so the match never
      fails and each part takes its first successful choice. */
  function InterpretLine(line: string): Fields {
    var a := SkipSpace(line, 0);
    var l := LabelEnd(line, a);
    var st := Statement(line, SkipSpace(line, l));
    Fields(if l > a then Some(line[a..l - 1]) else None, st.0, st.1, st.2)
  }

  /** The mnemonic group `(\w*)` (absent when empty) and the operands after it. */
  function Statement(line: string, b: nat): (Option<string>, Option<string>, Option<string>)
    requires b <= |line|
  {
    var n := WordEnd(line, b);
    var ops := Operands(line, SkipSpace(line, n));
    (if n > b then Some(line[b..n]) else None, ops.0, ops.1)
  }

  /** The first operand, then the optional second part. */
  function Operands(line: string, c: nat): (Option<string>, Option<string>)
    requires c <= |line|
  {
    var o1 := OperandEnd(line, c, false);
    (if o1 > c then Some(line[c..o1]) else None, SecondOperand(line, SkipSpace(line, o1)))
  }

  /** `(?:[,]\s*(operand))?` at d: a comma, white space and the second
      operand, or nothing when any of them is missing. */
  function SecondOperand(line: string, d: nat): Option<string>
    requires d <= |line|
  {
    if d < |line| && line[d] == ',' then
      var e := SkipSpace(line, d + 1);
      var o2 := OperandEnd(line, e, true);
      if o2 > e then Some(line[e..o2]) else None
    else None
  }

  // ---------------------------------------------------------------------
  // Well-formed fields and their rendering.

  predicate IsIdentifier(t: string) {
    |t| >= 1 && IsLetter(t[0]) && forall k :: 1 <= k < |t| ==> IsWordChar(t[k])
  }

  predicate IsWord(t: string) {
    |t| >= 1 && forall k :: 0 <= k < |t| ==> IsWordChar(t[k])
  }

  predicate AllDigits(t: string) {
    forall k :: 0 <= k < |t| ==> IsDigit(t[k])
  }

  /** The inside of a bracketed operand: a word, optionally followed by a
      sign and digits. */
  predicate IsBracketBody(t: string, second: bool) {
    var w := WordEnd(t, 0);
    w >= 1 && (w == |t| || (w + 2 <= |t| && IsOffsetSign(t[w], second) && AllDigits(t[w + 1..])))
  }

  /** The operand token shapes: `[body]`, a quoted text whose closing quote
      is the first one after its first character, or a bare word. */
  predicate IsOperandToken(t: string, second: bool) {
    |t| >= 1 &&
    ( (t[0] == '[' && |t| >= 3 && t[|t| - 1] == ']' && IsBracketBody(t[1..|t| - 1], second))
    || ((t[0] == '"' || t[0] == '\'') && |t| >= 3 && t[|t| - 1] == t[0]
        && (forall k :: 1 <= k < |t| - 1 ==> !IsLineTerminator(t[k]))
        && (forall k :: 2 <= k < |t| - 1 ==> t[k] != t[0]))
    || (IsBareStart(t[0]) && forall k :: 1 <= k < |t| ==> IsWordChar(t[k])) )
  }

  /** Fields a line can spell out: an identifier label, a word mnemonic, and
      operand tokens, each operand only after the ones before it. */
  predicate WellFormed(f: Fields) {
    (f.labelName.Some? ==> IsIdentifier(f.labelName.value))
    && (f.instruction.Some? ==> IsWord(f.instruction.value))
    && (f.operand1.Some? ==> f.instruction.Some? && IsOperandToken(f.operand1.value, false))
    && (f.operand2.Some? ==> f.operand1.Some? && IsOperandToken(f.operand2.value, true))
  }

  // ---------------------------------------------------------------------
  // The scanners' results are determined by their ensures clauses.

  lemma SkipSpaceAt(s: string, i: nat, j: nat)
    requires i <= j <= |s|
    requires forall k :: i <= k < j ==> IsSpace(s[k])
    requires j == |s| || !IsSpace(s[j])
    ensures SkipSpace(s, i) == j
  {
  }

  lemma WordEndAt(s: string, i: nat, j: nat)
    requires i <= j <= |s|
    requires forall k :: i <= k < j ==> IsWordChar(s[k])
    requires j == |s| || !IsWordChar(s[j])
    ensures WordEnd(s, i) == j
  {
  }

  lemma DigitEndAt(s: string, i: nat, j: nat)
    requires i <= j <= |s|
    requires forall k :: i <= k < j ==> IsDigit(s[k])
    requires j == |s| || !IsDigit(s[j])
    ensures DigitEnd(s, i) == j
  {
  }

  lemma {:induction false} ClosingQuoteAt(s: string, q: char, j: nat, k: nat)
    requires !IsLineTerminator(q)
    requires j <= k < |s| && s[k] == q
    requires forall m :: j <= m < k ==> s[m] != q && !IsLineTerminator(s[m])
    ensures ClosingQuote(s, q, j) == Some(k)
    decreases k - j
  {
    if j < k {
      ClosingQuoteAt(s, q, j + 1, k);
    }
  }

  /** The bracket scanner, once the word and the optional offset are known. */
  lemma BracketPartsAt(s: string, i: nat, q: nat, r: nat, second: bool)
    requires i + 1 < q <= r < |s| && s[i] == '[' && s[r] == ']' && WordEnd(s, i + 1) == q
    requires q == r || (q + 1 < r && IsOffsetSign(s[q], second) && DigitEnd(s, q + 1) == r)
    ensures BracketEnd(s, i, second) == r + 1
  {
  }

  lemma BracketEndAt(s: string, i: nat, t: string, second: bool)
    requires i + |t| <= |s| && s[i..i + |t|] == t
    requires |t| >= 3 && t[0] == '[' && t[|t| - 1] == ']' && IsBracketBody(t[1..|t| - 1], second)
    ensures BracketEnd(s, i, second) == i + |t|
  {
    var body := t[1..|t| - 1];
    var w := WordEnd(body, 0);
    var p := i + 1;
    var q := p + w;
    var r := p + |body|;
    assert forall k :: 0 <= k < |body| ==> body[k] == s[p + k];
    forall k | p <= k < q
      ensures IsWordChar(s[k])
    {
      assert s[k] == body[k - p];
    }
    assert s[i] == '[' && s[r] == ']';
    WordEndAt(s, p, q);
    if w < |body| {
      forall k | q + 1 <= k < r
        ensures IsDigit(s[k])
      {
        assert s[k] == body[w + 1..][k - (q + 1)];
      }
      DigitEndAt(s, q + 1, r);
    }
    BracketPartsAt(s, i, q, r, second);
  }

  lemma QuotedEndAt(s: string, i: nat, t: string)
    requires i + |t| <= |s| && s[i..i + |t|] == t
    requires |t| >= 3 && (t[0] == '"' || t[0] == '\'') && t[|t| - 1] == t[0]
    requires forall k :: 1 <= k < |t| - 1 ==> !IsLineTerminator(t[k])
    requires forall k :: 2 <= k < |t| - 1 ==> t[k] != t[0]
    ensures QuotedEnd(s, i) == i + |t|
  {
    assert forall k :: 0 <= k < |t| ==> s[i + k] == t[k];
    ClosingQuoteAt(s, t[0], i + 2, i + |t| - 1);
  }

  /** A well-formed operand token is recognised whole wherever it stands,
      provided no word character follows it. */
  lemma OperandEndAt(s: string, i: nat, t: string, second: bool)
    requires i + |t| <= |s| && s[i..i + |t|] == t
    requires IsOperandToken(t, second)
    requires i + |t| == |s| || !IsWordChar(s[i + |t|])
    ensures OperandEnd(s, i, second) == i + |t|
  {
    assert s[i] == t[0];
    if t[0] == '[' {
      BracketEndAt(s, i, t, second);
    } else if t[0] == '"' || t[0] == '\'' {
      QuotedEndAt(s, i, t);
    } else {
      assert forall k :: 0 <= k < |t| ==> s[i + k] == t[k];
      WordEndAt(s, i + 1, i + |t|);
    }
  }

  // ---------------------------------------------------------------------
  // Rendering well-formed fields, optionally followed by a comment, and
  // reading them back.

  /** What may follow the last part of a line without being read: nothing,
      or a space and a `;` comment. */
  predicate IsTrailer(tail: string) {
    tail == [] || (|tail| >= 2 && tail[0] == ' ' && tail[1] == ';')
  }

  function RenderOperands(f: Fields): string {
    (if f.operand1.Some? then f.operand1.value else "")
    + (if f.operand2.Some? then ", " + f.operand2.value else "")
  }

  function RenderStatement(f: Fields): string {
    (if f.instruction.Some? then f.instruction.value else "")
    + (if f.operand1.Some? then " " else "")
    + RenderOperands(f)
  }

  /** The canonical spelling of a line: `label: mnemonic op1, op2`. */
  function Render(f: Fields): string {
    (if f.labelName.Some? then f.labelName.value + ": " else "") + RenderStatement(f)
  }

  /** Where a trailer starts, the scanners see no further part. */
  lemma TrailerAt(s: string, c: nat)
    requires c <= |s| && IsTrailer(s[c..])
    ensures SkipSpace(s, c) == c || SkipSpace(s, c) == c + 1
    ensures SkipSpace(s, c) == |s| || s[SkipSpace(s, c)] == ';'
  {
    if c < |s| {
      assert s[c] == ' ' && s[c + 1] == ';';
      SkipSpaceAt(s, c, c + 1);
    } else {
      SkipSpaceAt(s, c, c);
    }
  }

  lemma NoOperandsAt(s: string, c: nat)
    requires c <= |s| && (c == |s| || s[c] == ';')
    ensures Operands(s, c) == (None, None)
  {
    SkipSpaceAt(s, c, c);
  }

  /** A token followed by text that does not start with a word character
      is read whole. */
  lemma TokenThen(s: string, c: nat, t: string, rest: string, second: bool)
    requires IsOperandToken(t, second) && (rest == [] || !IsWordChar(rest[0]))
    requires c <= |s| && s[c..] == t + rest
    ensures c + |t| <= |s| && OperandEnd(s, c, second) == c + |t|
    ensures s[c..c + |t|] == t && s[c + |t|..] == rest
  {
    var w := s[c..];
    assert s[c..c + |t|] == w[..|t|] == t;
    assert s[c + |t|..] == w[|t|..] == rest;
    if c + |t| < |s| {
      assert s[c + |t|] == rest[0];
    }
    OperandEndAt(s, c, t, second);
  }

  /** `, ` before a token: no space before the comma, one after it. */
  lemma CommaThen(s: string, d: nat, x: string)
    requires |x| >= 1 && !IsSpace(x[0])
    requires d <= |s| && s[d..] == ", " + x
    ensures d + 2 <= |s| && s[d] == ',' && s[d + 2..] == x
    ensures SkipSpace(s, d) == d && SkipSpace(s, d + 1) == d + 2
  {
    var w := s[d..];
    assert s[d] == w[0] == ',' && s[d + 1] == w[1] == ' ' && s[d + 2] == w[2] == x[0];
    assert s[d + 2..] == w[2..] == x;
    SkipSpaceAt(s, d, d);
    SkipSpaceAt(s, d + 1, d + 2);
  }

  lemma OneOperandAt(s: string, c: nat, t: string, tail: string)
    requires IsOperandToken(t, false) && IsTrailer(tail)
    requires c <= |s| && s[c..] == t + tail
    ensures Operands(s, c) == (Some(t), None)
  {
    var d := c + |t|;
    TokenThen(s, c, t, tail, false);
    TrailerAt(s, d);
  }

  /** An operand token does not start with white space. */
  lemma TokenStart(t: string, second: bool)
    requires IsOperandToken(t, second)
    ensures !IsSpace(t[0])
  {
  }

  /** The first operand ends at d, where no white space follows. */
  lemma FirstOperandEndsAt(s: string, c: nat, d: nat)
    requires c < d <= |s| && OperandEnd(s, c, false) == d && SkipSpace(s, d) == d
    ensures Operands(s, c) == (Some(s[c..d]), SecondOperand(s, d))
  {
  }

  /** The first operand, read up to d where `, ` follows it. */
  lemma FirstOperandAt(s: string, c: nat, d: nat, t: string, x: string)
    requires IsOperandToken(t, false) && d == c + |t|
    requires c <= |s| && s[c..] == t + (", " + x)
    ensures d <= |s| && s[d..] == ", " + x
    ensures Operands(s, c) == (Some(t), SecondOperand(s, d))
  {
    TokenThen(s, c, t, ", " + x, false);
    assert s[d] == ',' by {
      assert s[d..][0] == ',';
    }
    SkipSpaceAt(s, d, d);
    FirstOperandEndsAt(s, c, d);
  }

  /** `, ` and a second operand token followed by a trailer. */
  lemma SecondOperandAt(s: string, d: nat, u: string, tail: string)
    requires IsOperandToken(u, true) && IsTrailer(tail)
    requires d <= |s| && s[d..] == ", " + (u + tail)
    ensures SecondOperand(s, d) == Some(u)
  {
    TokenStart(u, true);
    CommaThen(s, d, u + tail);
    TokenThen(s, d + 2, u, tail, true);
  }

  lemma TwoOperandsAt(s: string, c: nat, t: string, u: string, tail: string)
    requires IsOperandToken(t, false) && IsOperandToken(u, true) && IsTrailer(tail)
    requires c <= |s| && s[c..] == t + ", " + u + tail
    ensures Operands(s, c) == (Some(t), Some(u))
  {
    var d := c + |t|;
    assert s[c..] == t + (", " + (u + tail)) by {
      assert t + ", " + u + tail == t + (", " + (u + tail));
    }
    FirstOperandAt(s, c, d, t, u + tail);
    SecondOperandAt(s, d, u, tail);
  }

  lemma OperandsRoundTrip(s: string, c: nat, f: Fields, tail: string)
    requires WellFormed(f) && f.operand1.Some? && IsTrailer(tail)
    requires c <= |s| && s[c..] == RenderOperands(f) + tail
    ensures Operands(s, c) == (f.operand1, f.operand2)
  {
    if f.operand2.Some? {
      TwoOperandsAt(s, c, f.operand1.value, f.operand2.value, tail);
    } else {
      OneOperandAt(s, c, f.operand1.value, tail);
    }
  }

  lemma StatementAtPositions(s: string, b: nat, n: nat, c: nat, ops: (Option<string>, Option<string>))
    requires b <= n <= c <= |s|
    requires WordEnd(s, b) == n && SkipSpace(s, n) == c && Operands(s, c) == ops
    ensures Statement(s, b) == (if n > b then Some(s[b..n]) else None, ops.0, ops.1)
  {
  }

  /** A mnemonic followed by the end of the line or a space is read whole. */
  lemma MnemonicAt(s: string, b: nat, m: string)
    requires IsWord(m) && b + |m| <= |s| && s[b..b + |m|] == m
    requires b + |m| == |s| || s[b + |m|] == ' '
    ensures WordEnd(s, b) == b + |m|
  {
    forall k | b <= k < b + |m|
      ensures IsWordChar(s[k])
    {
      assert s[k] == m[k - b];
    }
    WordEndAt(s, b, b + |m|);
  }

  lemma StatementRoundTrip(s: string, b: nat, f: Fields, tail: string)
    requires WellFormed(f) && IsTrailer(tail)
    requires b <= |s| && s[b..] == RenderStatement(f) + tail
    ensures Statement(s, b) == (f.instruction, f.operand1, f.operand2)
  {
    if f.instruction.None? {
      assert s[b..] == tail;
      BareStatementAt(s, b, tail);
    } else if f.operand1.None? {
      assert s[b..] == f.instruction.value + tail;
      MnemonicOnlyAt(s, b, f.instruction.value, tail);
    } else {
      MnemonicWithOperandsAt(s, b, f, tail);
    }
  }

  /** A statement with neither mnemonic nor operands. */
  lemma BareStatementAt(s: string, b: nat, tail: string)
    requires IsTrailer(tail) && b <= |s| && s[b..] == tail
    ensures Statement(s, b) == (None, None, None)
  {
    TrailerAt(s, b);
    var c := SkipSpace(s, b);
    if b < |s| {
      assert s[b] == ' ';
    }
    WordEndAt(s, b, b);
    NoOperandsAt(s, c);
    StatementAtPositions(s, b, b, c, (None, None));
  }

  /** A mnemonic with no operand. */
  lemma MnemonicOnlyAt(s: string, b: nat, m: string, tail: string)
    requires IsWord(m) && IsTrailer(tail) && b <= |s| && s[b..] == m + tail
    ensures Statement(s, b) == (Some(m), None, None)
  {
    var n := b + |m|;
    assert s[b..n] == m && s[n..] == tail;
    if n < |s| {
      assert s[n] == tail[0];
    }
    MnemonicAt(s, b, m);
    TrailerAt(s, n);
    var c := SkipSpace(s, n);
    NoOperandsAt(s, c);
    StatementAtPositions(s, b, n, c, (None, None));
  }

  /** A mnemonic ending at n, then one space and text x that does not
      start with white space. */
  lemma MnemonicThen(s: string, b: nat, n: nat, m: string, x: string)
    requires IsWord(m) && n == b + |m| && |x| >= 1 && !IsSpace(x[0])
    requires b <= |s| && s[b..] == m + (" " + x)
    ensures n < |s| && s[b..n] == m && s[n + 1..] == x
    ensures WordEnd(s, b) == n && SkipSpace(s, n) == n + 1
  {
    var w := s[b..];
    assert s[b..n] == w[..|m|] == m;
    assert s[n] == w[|m|] == ' ';
    assert s[n + 1..] == w[|m| + 1..] == x;
    assert s[n + 1] == x[0];
    MnemonicAt(s, b, m);
    SkipSpaceAt(s, n, n + 1);
  }

  /** A mnemonic, one space, and its operands. */
  lemma MnemonicWithOperandsAt(s: string, b: nat, f: Fields, tail: string)
    requires WellFormed(f) && IsTrailer(tail) && f.operand1.Some?
    requires b <= |s| && s[b..] == RenderStatement(f) + tail
    ensures Statement(s, b) == (f.instruction, f.operand1, f.operand2)
  {
    var m := f.instruction.value;
    var n := b + |m|;
    var rest := RenderOperands(f) + tail;
    assert s[b..] == m + (" " + rest) by {
      assert RenderStatement(f) + tail == m + (" " + rest);
    }
    assert !IsSpace(rest[0]) by {
      TokenStart(f.operand1.value, false);
      assert rest[0] == f.operand1.value[0];
    }
    MnemonicThen(s, b, n, m, rest);
    var p := n + 1;
    OperandsRoundTrip(s, p, f, tail);
    StatementAtPositions(s, b, n, p, (f.operand1, f.operand2));
  }

  lemma LineAtPositions(s: string, a: nat, l: nat, b: nat, st: (Option<string>, Option<string>, Option<string>))
    requires a <= l <= b <= |s|
    requires SkipSpace(s, 0) == a && LabelEnd(s, a) == l && SkipSpace(s, l) == b && Statement(s, b) == st
    ensures InterpretLine(s) == Fields(if l > a then Some(s[a..l - 1]) else None, st.0, st.1, st.2)
  {
  }

  lemma LabelPrefixAt(s: string, x: string, rest: string)
    requires IsIdentifier(x) && s == x + ": " + rest
    ensures SkipSpace(s, 0) == 0 && LabelEnd(s, 0) == |x| + 1
    ensures s[0..|x|] == x && s[|x| + 1..] == " " + rest
  {
    var n := |x|;
    assert s[0..n] == x;
    assert s[0] == x[0] && s[n] == ':';
    SkipSpaceAt(s, 0, 0);
    forall k | 1 <= k < n
      ensures IsWordChar(s[k])
    {
      assert s[k] == x[k];
    }
    WordEndAt(s, 1, n);
    assert s[n + 1..] == " " + rest;
  }

  /** A statement after one separating space. */
  lemma SpacedStatementRoundTrip(s: string, p: nat, f: Fields, tail: string)
    requires WellFormed(f) && IsTrailer(tail)
    requires p <= |s| && s[p..] == " " + RenderStatement(f) + tail
    ensures Statement(s, SkipSpace(s, p)) == (f.instruction, f.operand1, f.operand2)
  {
    if f.instruction.Some? {
      assert s[p] == ' ' && s[p + 1] == f.instruction.value[0];
      SkipSpaceAt(s, p, p + 1);
      assert s[p + 1..] == RenderStatement(f) + tail;
      StatementRoundTrip(s, p + 1, f, tail);
    } else {
      assert s[p + 1..] == tail;
      TrailerAt(s, p + 1);
      var c := SkipSpace(s, p + 1);
      SkipSpaceAt(s, p, c);
      WordEndAt(s, c, c);
      NoOperandsAt(s, c);
      StatementAtPositions(s, c, c, c, (None, None));
    }
  }

  lemma LabelledLineAt(s: string, x: string, f: Fields, tail: string)
    requires IsIdentifier(x) && WellFormed(f) && IsTrailer(tail)
    requires s == x + ": " + (RenderStatement(f) + tail)
    ensures InterpretLine(s) == Fields(Some(x), f.instruction, f.operand1, f.operand2)
  {
    var n := |x|;
    var rest := RenderStatement(f) + tail;
    LabelPrefixAt(s, x, rest);
    SpacedStatementRoundTrip(s, n + 1, f, tail);
    LineAtPositions(s, 0, n + 1, SkipSpace(s, n + 1), (f.instruction, f.operand1, f.operand2));
  }

  lemma LabelledRoundTrip(f: Fields, tail: string)
    requires WellFormed(f) && f.labelName.Some? && IsTrailer(tail)
    ensures InterpretLine(Render(f) + tail) == f
  {
    var x := f.labelName.value;
    assert Render(f) + tail == x + ": " + (RenderStatement(f) + tail);
    LabelledLineAt(Render(f) + tail, x, f, tail);
  }

  lemma UnlabelledRoundTrip(f: Fields, tail: string)
    requires WellFormed(f) && f.labelName.None? && IsTrailer(tail)
    ensures InterpretLine(Render(f) + tail) == f
  {
    var s := Render(f) + tail;
    assert s == RenderStatement(f) + tail;
    if f.instruction.Some? {
      var m := f.instruction.value;
      assert SkipSpace(s, 0) == 0 && LabelEnd(s, 0) == 0 by {
        assert s[0] == m[0];
        SkipSpaceAt(s, 0, 0);
        forall k | 1 <= k < |m|
          ensures IsWordChar(s[k])
        {
          assert s[k] == m[k];
        }
        assert |m| < |s| ==> s[|m|] == ' ';
        WordEndAt(s, 1, |m|);
      }
      StatementRoundTrip(s, 0, f, tail);
    } else {
      assert s == tail;
      TrailerAt(s, 0);
      var a := SkipSpace(s, 0);
      assert LabelEnd(s, a) == a;
      SkipSpaceAt(s, a, a);
      assert Statement(s, a) == (None, None, None) by {
        WordEndAt(s, a, a);
        NoOperandsAt(s, a);
      }
    }
  }

  /** Parsing the canonical spelling of well-formed fields, with or without a
      trailing comment, gives the fields back. */
  lemma RenderRoundTrip(f: Fields, tail: string)
    requires WellFormed(f) && IsTrailer(tail)
    ensures InterpretLine(Render(f) + tail) == f
  {
    if f.labelName.Some? {
      LabelledRoundTrip(f, tail);
    } else {
      UnlabelledRoundTrip(f, tail);
    }
  }

  /** A word followed by the end of the line or a space is not a label. */
  lemma WordIsNoLabel(s: string, a: nat, m: string)
    requires IsWord(m) && a + |m| <= |s| && s[a..a + |m|] == m
    requires a + |m| == |s| || s[a + |m|] == ' '
    ensures LabelEnd(s, a) == a
  {
    MnemonicAt(s, a, m);
    assert s[a] == m[0];
  }

  /** Only white space lies before position a. */
  lemma SpacesBefore(s: string, ws: string, a: nat)
    requires forall k :: 0 <= k < |ws| ==> IsSpace(ws[k])
    requires a == |ws| < |s| && s[..a] == ws && !IsSpace(s[a])
    ensures SkipSpace(s, 0) == a
  {
    forall k | 0 <= k < a
      ensures IsSpace(s[k])
    {
      assert s[k] == s[..a][k];
    }
    SkipSpaceAt(s, 0, a);
  }

  /** White space before an unlabelled statement is skipped: the indented
      canonical spelling gives the fields back. */
  lemma IndentedStatementRoundTrip(ws: string, f: Fields, tail: string)
    requires forall k :: 0 <= k < |ws| ==> IsSpace(ws[k])
    requires WellFormed(f) && f.labelName.None? && f.instruction.Some? && IsTrailer(tail)
    ensures InterpretLine(ws + Render(f) + tail) == f
  {
    var s := ws + Render(f) + tail;
    var a := |ws|;
    var m := f.instruction.value;
    var rest := (if f.operand1.Some? then " " else "") + RenderOperands(f) + tail;
    assert s[a..] == RenderStatement(f) + tail == m + rest;
    assert s[a..a + |m|] == m && s[..a] == ws;
    assert a + |m| < |s| ==> s[a + |m|] == rest[0] == ' ';
    SpacesBefore(s, ws, a);
    WordIsNoLabel(s, a, m);
    SkipSpaceAt(s, a, a);
    StatementRoundTrip(s, a, f, tail);
    LineAtPositions(s, a, a, a, (f.instruction, f.operand1, f.operand2));
  }

  /** A label alone on its line, after any white space. */
  lemma IndentedLabelLine(ws: string, x: string)
    requires forall k :: 0 <= k < |ws| ==> IsSpace(ws[k])
    requires IsIdentifier(x)
    ensures InterpretLine(ws + x + ":") == Fields(Some(x), None, None, None)
  {
    var s := ws + x + ":";
    var a := |ws|;
    var l := a + |x| + 1;
    assert s[..a] == ws && s[a] == x[0];
    SpacesBefore(s, ws, a);
    forall k | a + 1 <= k < a + |x|
      ensures IsWordChar(s[k])
    {
      assert s[k] == x[k - a];
    }
    WordEndAt(s, a + 1, a + |x|);
    assert LabelEnd(s, a) == l;
    assert s[a..l - 1] == x;
    SkipSpaceAt(s, l, l);
    WordEndAt(s, l, l);
    NoOperandsAt(s, l);
    StatementAtPositions(s, l, l, l, (None, None));
    LineAtPositions(s, a, l, l, (None, None, None));
  }

  /** The documented line splits: a trailing comment is ignored, missing
      parts are absent, and a bracketed first operand is kept whole. */
  lemma LabelledLineExample()
    ensures InterpretLine("label: push a, b ;comment") == Fields(Some("label"), Some("push"), Some("a"), Some("b"))
  {
    var f := Fields(Some("label"), Some("push"), Some("a"), Some("b"));
    assert Render(f) + " ;comment" == "label: push a, b ;comment";
    RenderRoundTrip(f, " ;comment");
  }

  lemma TwoOperandLineExample()
    ensures InterpretLine("push a, b") == Fields(None, Some("push"), Some("a"), Some("b"))
  {
    var f := Fields(None, Some("push"), Some("a"), Some("b"));
    assert Render(f) + [] == "push a, b";
    RenderRoundTrip(f, []);
  }

  lemma OneOperandLineExample()
    ensures InterpretLine("push a") == Fields(None, Some("push"), Some("a"), None)
  {
    var f := Fields(None, Some("push"), Some("a"), None);
    assert Render(f) + [] == "push a";
    RenderRoundTrip(f, []);
  }

  lemma BracketLineExample()
    ensures InterpretLine("push [a], b") == Fields(None, Some("push"), Some("[a]"), Some("b"))
  {
    var f := Fields(None, Some("push"), Some("[a]"), Some("b"));
    assert WordEnd("a", 0) == 1;
    assert Render(f) + [] == "push [a], b";
    RenderRoundTrip(f, []);
  }

  lemma StringLineExample()
    ensures InterpretLine("DB \"string\"") == Fields(None, Some("DB"), Some("\"string\""), None)
  {
    var f := Fields(None, Some("DB"), Some("\"string\""), None);
    assert Render(f) + [] == "DB \"string\"";
    RenderRoundTrip(f, []);
  }

  lemma EmptyLineExample()
    ensures InterpretLine("") == Fields(None, None, None, None)
  {
    RenderRoundTrip(Fields(None, None, None, None), []);
  }
}
