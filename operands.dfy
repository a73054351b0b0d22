/** Operand classification, as the string-tagged interpreter the assembler
    calls performs it: number literals in five notations, register names,
    label names, the kind of an operand token, and the arity check. The two
    enum-tagged copies share these functions, with their own range test for
    numbers (see Copy, EnumInterpreter and Tokenizer). */
module Operands {
  import opened Base
  import opened Lexer
  import opened InstructionSet

  // ---------------------------------------------------------------------
  // Number literals.

  /** The value `parseInt` gives a digit character in bases up to 36, or 36
      for a character that is no digit at all. */
  function DigitValue(c: char): (v: nat)
    ensures v <= 36
  {
    if '0' <= c <= '9' then c as int - '0' as int
    else if 'a' <= c <= 'z' then c as int - 'a' as int + 10
    else if 'A' <= c <= 'Z' then c as int - 'A' as int + 10
    else 36
  }

  /** A non-empty run of digits of the given base. */
  predicate IsNumeral(t: string, base: nat) {
    |t| >= 1 && forall k :: 0 <= k < |t| ==> DigitValue(t[k]) < base
  }

  /** The value of a numeral, most significant digit first. */
  function ValueOf(t: string, base: nat): nat
    decreases |t|
  {
    if t == [] then 0 else ValueOf(t[..|t| - 1], base) * base + DigitValue(t[|t| - 1])
  }

  /** `parseInt(t, base)` on a well-formed literal: an optional sign and a
      numeral. Anything else is reported as a malformed `input`. */
  function SignedValue(t: string, base: nat, input: string): Result<int> {
    if |t| >= 1 && (t[0] == '+' || t[0] == '-') then
      if IsNumeral(t[1..], base) then
        var v: int := ValueOf(t[1..], base);
        Ok(if t[0] == '-' then -v else v)
      else Err(InvalidNumberFormat(input))
    else if IsNumeral(t, base) then Ok(ValueOf(t, base))
    else Err(InvalidNumberFormat(input))
  }

  /** The literal's notation, chosen in the source's order: a `0x` or `$`
      prefix, then a `b`, `o` or `d` suffix, then a plain signed decimal. */
  function ParseLiteral(input: string): Result<int> {
    if |input| >= 2 && input[..2] == "0x" then SignedValue(input[2..], 16, input)
    else if |input| >= 1 && input[0] == '$' then SignedValue(input[1..], 16, input)
    else if |input| >= 1 && input[|input| - 1] == 'b' then SignedValue(input[..|input| - 1], 2, input)
    else if |input| >= 1 && input[|input| - 1] == 'o' then SignedValue(input[..|input| - 1], 8, input)
    else if |input| >= 1 && input[|input| - 1] == 'd' then SignedValue(input[..|input| - 1], 10, input)
    else SignedValue(input, 10, input)
  }

  /** The source holds three copies of the operand reader: the string-tagged
      one the assembler calls, and the enum-tagged ones of the enum
      interpreter and the tokenizer. They differ only in parseNumber's range
      test. */
  datatype Copy = StringTagged | EnumTagged

  /** The least magnitude JavaScript prints in exponent form (`1e+21`). */
  const ExponentForm: int := 1_000_000_000_000_000_000_000

  /** The first decimal digit of n. */
  function LeadingDigit(n: nat): (d: nat)
    ensures n >= 1 ==> 1 <= d <= 9
    ensures d <= n
  {
    if n < 10 then n else LeadingDigit(n / 10)
  }

  /** `parseInt(v, 10)` of a number v: parseInt reads the printed form of
      v, and of an exponent form such as `1.5e+21` only the digits before
      the point, so only the leading digit and the sign survive. */
  function Reparsed(v: int): int {
    if v >= ExponentForm then LeadingDigit(v)
    else if v <= -ExponentForm then -(LeadingDigit(-v) as int)
    else v
  }

  /** The range test: on the re-parsed value in the string-tagged copy, on
      the value itself in the enum-tagged ones. */
  predicate InRange(copy: Copy, v: int) {
    match copy
    case StringTagged => 0 <= Reparsed(v) <= 255
    case EnumTagged => 0 <= v <= 255
  }

  /** The string-tagged copy passes every byte and every value whose printed
      form is an exponent form, and refuses everything else; the enum-tagged
      copies pass exactly the bytes. */
  lemma RangeTests(v: int)
    ensures InRange(StringTagged, v) <==> 0 <= v <= 255 || v >= ExponentForm
    ensures InRange(EnumTagged, v) <==> 0 <= v <= 255
  {
    if v <= -ExponentForm {
      assert LeadingDigit(-v) >= 1;
    }
  }

  /** The outcome of the range test on a literal's value v. */
  function Checked(copy: Copy, v: int): Result<int> {
    if InRange(copy, v) then Ok(v) else Err(NumberTooHigh(v))
  }

  /** `parseNumber`: a literal that passes the copy's range test. */
  function ParseNumber(copy: Copy, input: string): (r: Result<int>)
    ensures r.Ok? ==> 0 <= r.value <= 255 || (copy == StringTagged && r.value >= ExponentForm)
    ensures r.Err? ==> r.error == InvalidNumberFormat(input) || r.error.NumberTooHigh?
  {
    var v :- ParseLiteral(input);
    RangeTests(v);
    Checked(copy, v)
  }

  /** The copies read every literal alike, except that the enum-tagged ones
      refuse the values of ExponentForm or more that the string-tagged one
      passes. */
  lemma ParseNumberCopies(input: string)
    ensures var s := ParseNumber(StringTagged, input);
      ParseNumber(EnumTagged, input)
        == if s.Ok? && s.value >= ExponentForm then Err(NumberTooHigh(s.value)) else s
  {
    var v := ParseLiteral(input);
    if v.Ok? {
      RangeTests(v.value);
    }
  }

  /** `MOV A, 1000000000000000000000`: the string-tagged copy re-parses
      "1e+21" as 1 and passes the literal, the enum-tagged copies refuse it. */
  lemma ExponentFormExample()
    ensures ParseNumber(StringTagged, Numeral(ExponentForm, 10)) == Ok(ExponentForm)
    ensures ParseNumber(EnumTagged, Numeral(ExponentForm, 10)) == Err(NumberTooHigh(ExponentForm))
  {
    NotationsRoundTrip(ExponentForm);
    RangeTests(ExponentForm);
  }

  /** The digit character of a digit value; letters are upper case. */
  function DigitChar(d: nat): char
    requires d < 36
  {
    if d < 10 then ('0' as int + d) as char else ('A' as int + d - 10) as char
  }

  /** The numeral of n in the given base, without leading zeros. */
  function Numeral(n: nat, base: nat): (t: string)
    requires 2 <= base <= 36
    ensures |t| >= 1
    decreases n
  {
    if n < base then [DigitChar(n)] else Numeral(n / base, base) + [DigitChar(n % base)]
  }

  /** A numeral consists of digits of its base, decimal digits when the base
      is at most ten. */
  lemma {:induction false} NumeralDigits(n: nat, base: nat)
    requires 2 <= base <= 36
    ensures IsNumeral(Numeral(n, base), base)
    ensures base <= 10 ==> forall k :: 0 <= k < |Numeral(n, base)| ==> IsDigit(Numeral(n, base)[k])
    decreases n
  {
    var t := Numeral(n, base);
    if n < base {
      assert DigitValue(DigitChar(n)) == n;
    } else {
      var r := n % base;
      DivideByBase(n, base);
      NumeralDigits(n / base, base);
      var p := Numeral(n / base, base);
      assert DigitValue(DigitChar(r)) == r;
      forall k | 0 <= k < |t|
        ensures DigitValue(t[k]) < base && (base <= 10 ==> IsDigit(t[k]))
      {
        if k < |p| {
          assert t[k] == p[k];
        }
      }
    }
  }

  /** A numeral reads back as the number it was printed from. */
  lemma {:induction false} NumeralValue(n: nat, base: nat)
    requires 2 <= base <= 36
    ensures ValueOf(Numeral(n, base), base) == n
    decreases n
  {
    if n < base {
      var t := Numeral(n, base);
      assert t[..0] == [];
      assert DigitValue(DigitChar(n)) == n;
    } else {
      var q := n / base;
      var r := n % base;
      DivideByBase(n, base);
      NumeralValue(q, base);
      LastDigit(n, base, q, r);
    }
  }

  /** Reading a numeral of at least two digits: its prefix, times the base,
      plus its last digit. */
  lemma LastDigit(n: nat, base: nat, q: nat, r: nat)
    requires 2 <= base <= 36 && base <= n && q == n / base && r == n % base
    ensures ValueOf(Numeral(n, base), base) == ValueOf(Numeral(q, base), base) * base + r
  {
    var t := Numeral(n, base);
    var p := Numeral(q, base);
    assert t == p + [DigitChar(r)];
    assert t[..|t| - 1] == p;
    assert t[|t| - 1] == DigitChar(r);
    assert DigitValue(DigitChar(r)) == r;
  }

  lemma DivideByBase(n: nat, base: nat)
    requires 2 <= base <= n
    ensures n / base < n && (n / base) * base + n % base == n
  {
    var q := n / base;
    assert n == base * q + n % base;
    assert q * base >= q * 2;
  }

  /** Every notation reads back every natural number it prints, and passes
      it to the range test. */
  lemma NotationsRoundTrip(n: nat)
    ensures forall copy: Copy ::
      && ParseNumber(copy, "0x" + Numeral(n, 16)) == Checked(copy, n)
      && ParseNumber(copy, "$" + Numeral(n, 16)) == Checked(copy, n)
      && ParseNumber(copy, Numeral(n, 2) + "b") == Checked(copy, n)
      && ParseNumber(copy, Numeral(n, 8) + "o") == Checked(copy, n)
      && ParseNumber(copy, Numeral(n, 10) + "d") == Checked(copy, n)
      && ParseNumber(copy, Numeral(n, 10)) == Checked(copy, n)
  {
    var h := Numeral(n, 16);
    assert ParseLiteral("0x" + h) == Ok(n) && ParseLiteral("$" + h) == Ok(n) by {
      NumeralValue(n, 16);
      NumeralDigits(n, 16);
      HexAt(h);
    }
    assert ParseLiteral(Numeral(n, 2) + "b") == Ok(n) by {
      NumeralValue(n, 2);
      NumeralDigits(n, 2);
      SuffixedAt(Numeral(n, 2), 'b', 2);
    }
    assert ParseLiteral(Numeral(n, 8) + "o") == Ok(n) by {
      NumeralValue(n, 8);
      NumeralDigits(n, 8);
      SuffixedAt(Numeral(n, 8), 'o', 8);
    }
    assert ParseLiteral(Numeral(n, 10) + "d") == Ok(n) && ParseLiteral(Numeral(n, 10)) == Ok(n) by {
      NumeralValue(n, 10);
      NumeralDigits(n, 10);
      SuffixedAt(Numeral(n, 10), 'd', 10);
      PlainAt(Numeral(n, 10));
    }
  }

  /** A well-formed literal of value v: the string-tagged copy passes it
      when v is a byte or printed in exponent form, the enum-tagged copies
      when it is a byte; otherwise it is too high. */
  lemma RangeCheck(input: string, v: int)
    requires ParseLiteral(input) == Ok(v)
    ensures ParseNumber(StringTagged, input) == (if 0 <= v <= 255 || v >= ExponentForm then Ok(v) else Err(NumberTooHigh(v)))
    ensures ParseNumber(EnumTagged, input) == (if 0 <= v <= 255 then Ok(v) else Err(NumberTooHigh(v)))
  {
    RangeTests(v);
  }

  /** A numeral read without a sign. */
  lemma UnsignedAt(t: string, base: nat, input: string)
    requires 2 <= base <= 36 && IsNumeral(t, base)
    ensures SignedValue(t, base, input) == Ok(ValueOf(t, base))
  {
    assert DigitValue(t[0]) < base;
  }

  /** A hexadecimal numeral after either hexadecimal prefix. */
  lemma HexAt(h: string)
    requires IsNumeral(h, 16)
    ensures ParseLiteral("0x" + h) == Ok(ValueOf(h, 16))
    ensures ParseLiteral("$" + h) == Ok(ValueOf(h, 16))
  {
    assert ("0x" + h)[..2] == "0x" && ("0x" + h)[2..] == h;
    UnsignedAt(h, 16, "0x" + h);
    assert ("$" + h)[0] == '$' && ("$" + h)[1..] == h && ("$" + h)[..2] != "0x";
    UnsignedAt(h, 16, "$" + h);
  }

  /** A decimal numeral without a suffix. */
  lemma PlainAt(t: string)
    requires IsNumeral(t, 10)
    ensures ParseLiteral(t) == Ok(ValueOf(t, 10))
  {
    assert DigitValue(t[0]) < 10 && DigitValue(t[|t| - 1]) < 10;
    assert |t| >= 2 ==> DigitValue(t[1]) < 10;
  }

  /** A numeral of base at most ten followed by its notation's suffix is read
      by that suffix's branch. */
  lemma SuffixedAt(t: string, suffix: char, base: nat)
    requires 2 <= base <= 10 && IsNumeral(t, base)
    requires suffix in {'b', 'o', 'd'}
    requires base == (if suffix == 'b' then 2 else if suffix == 'o' then 8 else 10)
    ensures ParseLiteral(t + [suffix]) == Ok(ValueOf(t, base))
  {
    var s := t + [suffix];
    assert s[|s| - 1] == suffix && s[..|s| - 1] == t;
    assert DigitValue(t[0]) < 10;
    assert |s| >= 2 && s[1] != 'x' by {
      if |t| >= 2 {
        assert DigitValue(t[1]) < 10;
      }
    }
  }

  // The literal shapes the documentation lists, accepted and rejected.

  lemma BinaryExamples(copy: Copy)
    ensures ParseNumber(copy, "101b") == Ok(5)
    ensures ParseNumber(copy, "100000000b") == Err(NumberTooHigh(256))
  {
    assert Numeral(5, 2) + "b" == "101b";
    assert Numeral(256, 2) + "b" == "100000000b";
    NotationsRoundTrip(5);
    NotationsRoundTrip(256);
  }

  lemma OctalExamples(copy: Copy)
    ensures ParseNumber(copy, "100o") == Ok(64)
    ensures ParseNumber(copy, "400o") == Err(NumberTooHigh(256))
  {
    assert Numeral(64, 8) + "o" == "100o";
    assert Numeral(256, 8) + "o" == "400o";
    NotationsRoundTrip(64);
    NotationsRoundTrip(256);
  }

  lemma HexExamples(copy: Copy)
    ensures ParseNumber(copy, "0xA4") == Ok(164) && ParseNumber(copy, "$A4") == Ok(164)
    ensures ParseNumber(copy, "0xFFF") == Err(NumberTooHigh(4095)) && ParseNumber(copy, "$FFF") == Err(NumberTooHigh(4095))
  {
    assert "0x" + Numeral(164, 16) == "0xA4" && "$" + Numeral(164, 16) == "$A4";
    assert "0x" + Numeral(4095, 16) == "0xFFF" && "$" + Numeral(4095, 16) == "$FFF";
    NotationsRoundTrip(164);
    NotationsRoundTrip(4095);
  }

  lemma DecimalExamples(copy: Copy)
    ensures ParseNumber(copy, "200") == Ok(200) && ParseNumber(copy, "200d") == Ok(200)
  {
    assert Numeral(200, 10) == "200" && Numeral(200, 10) + "d" == "200d";
    NotationsRoundTrip(200);
  }

  lemma SignedExamples(copy: Copy)
    ensures ParseNumber(copy, "+200") == Ok(200) && ParseNumber(copy, "+200d") == Ok(200)
    ensures ParseNumber(copy, "-200") == Err(NumberTooHigh(-200)) && ParseNumber(copy, "-200d") == Err(NumberTooHigh(-200))
  {
    assert Numeral(200, 10) == "200";
    NumeralValue(200, 10);
    NumeralDigits(200, 10);
    assert "+200" == ['+'] + "200" && "-200" == ['-'] + "200";
    assert "+200d" == ['+'] + "200" + "d" && "-200d" == ['-'] + "200" + "d";
    SignedDecimalAt('+', "200");
    SignedDecimalAt('-', "200");
  }

  /** A signed decimal numeral, with or without the `d` suffix. */
  lemma SignedDecimalAt(sign: char, t: string)
    requires (sign == '+' || sign == '-') && IsNumeral(t, 10)
    ensures var v := if sign == '-' then -(ValueOf(t, 10) as int) else ValueOf(t, 10);
      ParseLiteral([sign] + t) == Ok(v) && ParseLiteral([sign] + t + "d") == Ok(v)
  {
    var s := [sign] + t;
    assert s[1..] == t && s[0] == sign;
    assert DigitValue(t[|t| - 1]) < 10;
    var sd := s + "d";
    assert sd[..|sd| - 1] == s && sd[|sd| - 1] == 'd' && sd[0] == sign;
  }

  lemma MalformedExample(copy: Copy)
    ensures ParseNumber(copy, "12x") == Err(InvalidNumberFormat("12x"))
  {
    assert DigitValue("12x"[2]) == 33;
  }

  // ---------------------------------------------------------------------
  // Registers and labels.

  /** The register names, by index: A, B, C, D and SP. */
  function RegisterName(i: nat): string
    requires i <= 4
  {
    ["A", "B", "C", "D", "SP"][i]
  }

  /** `parseRegister`: a register name in either case. */
  function ParseRegister(input: string): Option<nat> {
    var u := Upper(input);
    if u == "A" then Some(0)
    else if u == "B" then Some(1)
    else if u == "C" then Some(2)
    else if u == "D" then Some(3)
    else if u == "SP" then Some(4)
    else None
  }

  /** A token names register i exactly when its upper-case spelling is that
      register's name; no other token names a register. */
  lemma ParseRegisterNames(input: string, i: nat)
    ensures ParseRegister(input) == Some(i) <==> i <= 4 && Upper(input) == RegisterName(i)
    ensures ParseRegister(input).Some? ==> ParseRegister(input).value <= 4
  {
  }

  /** Each register's name reads back as that register. */
  lemma RegisterNameReads(i: nat)
    requires i <= 4
    ensures ParseRegister(RegisterName(i)) == Some(i)
  {
    var u := Upper(RegisterName(i));
    if i == 4 {
      assert u == "SP";
    } else {
      assert u == RegisterName(i);
    }
  }

  /** `parseLabel`: the token itself when it has the shape of a label. */
  function ParseLabel(input: string): Option<string> {
    if IsIdentifier(input) then Some(input) else None
  }

  /** parseLabel accepts exactly the names the line pattern's label group
      accepts in front of a colon. */
  lemma ParseLabelMatchesLabelGroup(x: string)
    ensures ParseLabel(x).Some? <==> LabelEnd(x + ":", 0) == |x| + 1
    ensures ParseLabel(x).Some? ==> ParseLabel(x).value == x
  {
    var s := x + ":";
    if |x| >= 1 && IsLetter(x[0]) {
      var w := WordEnd(s, 1);
      if IsIdentifier(x) {
        forall k | 1 <= k < |x|
          ensures IsWordChar(s[k])
        {
          assert s[k] == x[k];
        }
        WordEndAt(s, 1, |x|);
      } else {
        var k :| 1 <= k < |x| && !IsWordChar(x[k]);
        assert s[k] == x[k];
        assert w <= k;
      }
    }
  }

  // ---------------------------------------------------------------------
  // Operand kinds.

  datatype Kind = Number | Char | String | Address | Register | RegAddress

  /** What an operand carries: a number (a register index, a byte or a
      character code), a label name still to be resolved, or the character
      codes of a string. */
  datatype Payload = Int(n: int) | Name(name: string) | Codes(codes: seq<int>)

  datatype Operand = Operand(kind: Kind, value: Payload)

  /** `input.slice(1, input.length - 1)`: the text between the first and the
      last character, empty when there is none. */
  function Inner(input: string): (t: string)
    ensures |input| >= 2 ==> t == input[1..|input| - 1]
    ensures |input| < 2 ==> t == []
  {
    if |input| >= 2 then input[1..|input| - 1] else []
  }

  // UTF-16. A JavaScript string is a sequence of UTF-16 code units: a
  // character above 0xFFFF takes two, a high and a low surrogate.

  predicate IsHighSurrogate(u: int) { 0xD800 <= u < 0xDC00 }
  predicate IsLowSurrogate(u: int) { 0xDC00 <= u < 0xE000 }

  /** A code unit that is a character by itself. */
  predicate IsSingleUnit(u: int) {
    0 <= u < 0xD800 || 0xE000 <= u < 0x10000
  }

  /** The code units of one character. */
  function Utf16(c: char): (units: seq<int>)
    ensures c as int < 0x10000 ==> units == [c as int] && IsSingleUnit(c as int)
    ensures c as int >= 0x10000 ==> |units| == 2 && IsHighSurrogate(units[0]) && IsLowSurrogate(units[1])
  {
    var v := c as int;
    if v < 0x10000 then [v] else [0xD800 + (v - 0x10000) / 0x400, 0xDC00 + (v - 0x10000) % 0x400]
  }

  /** `charCodeAt` for each index below `.length`: the code units of a
      string. */
  function CharCodes(s: string): (cs: seq<int>)
    ensures |cs| >= |s|
  {
    if s == [] then [] else Utf16(s[0]) + CharCodes(s[1..])
  }

  /** Well-formed UTF-16: every surrogate is a high one followed by a low
      one. */
  predicate IsUtf16(us: seq<int>)
    decreases |us|
  {
    if us == [] then true
    else if IsSingleUnit(us[0]) then IsUtf16(us[1..])
    else |us| >= 2 && IsHighSurrogate(us[0]) && IsLowSurrogate(us[1]) && IsUtf16(us[2..])
  }

  /** The character a surrogate pair encodes. */
  function Paired(hi: int, lo: int): char
    requires IsHighSurrogate(hi) && IsLowSurrogate(lo)
  {
    (0x10000 + (hi - 0xD800) * 0x400 + (lo - 0xDC00)) as char
  }

  /** The string that well-formed code units encode. */
  function FromUtf16(us: seq<int>): string
    requires IsUtf16(us)
    decreases |us|
  {
    if us == [] then []
    else if IsSingleUnit(us[0]) then [us[0] as char] + FromUtf16(us[1..])
    else [Paired(us[0], us[1])] + FromUtf16(us[2..])
  }

  /** A surrogate pair decodes to the character it was encoded from. */
  lemma PairedUtf16(c: char)
    requires c as int >= 0x10000
    ensures Paired(Utf16(c)[0], Utf16(c)[1]) == c
  {
    var v := c as int - 0x10000;
    assert v == (v / 0x400) * 0x400 + v % 0x400;
  }

  /** Every string's code units are well formed and decode to it. */
  lemma {:induction false} CharCodesRoundTrip(s: string)
    ensures IsUtf16(CharCodes(s)) && FromUtf16(CharCodes(s)) == s
    decreases |s|
  {
    if s != [] {
      var us := CharCodes(s);
      var rest := CharCodes(s[1..]);
      CharCodesRoundTrip(s[1..]);
      if s[0] as int < 0x10000 {
        assert us[1..] == rest;
      } else {
        assert us[2..] == rest;
        PairedUtf16(s[0]);
      }
      assert s == [s[0]] + s[1..];
    }
  }

  /** Well-formed code units are the code units of the string they decode
      to. */
  lemma {:induction false} FromUtf16RoundTrip(us: seq<int>)
    requires IsUtf16(us)
    ensures CharCodes(FromUtf16(us)) == us
    decreases |us|
  {
    if us != [] {
      var s := FromUtf16(us);
      if IsSingleUnit(us[0]) {
        FromUtf16RoundTrip(us[1..]);
        assert s[1..] == FromUtf16(us[1..]);
        assert us == [us[0]] + us[1..];
      } else {
        FromUtf16RoundTrip(us[2..]);
        assert s[1..] == FromUtf16(us[2..]);
        PairedUnits(us[0], us[1]);
        assert us == [us[0], us[1]] + us[2..];
      }
    }
  }

  /** A surrogate pair's character encodes back to the pair. */
  lemma PairedUnits(hi: int, lo: int)
    requires IsHighSurrogate(hi) && IsLowSurrogate(lo)
    ensures Utf16(Paired(hi, lo)) == [hi, lo]
  {
    var v := (hi - 0xD800) * 0x400 + (lo - 0xDC00);
    assert v / 0x400 == hi - 0xD800 && v % 0x400 == lo - 0xDC00;
  }

  /** A string of characters up to 0xFFFF has one code unit per character,
      the character's own code. */
  lemma {:induction false} SingleUnitCodes(s: string)
    requires forall k :: 0 <= k < |s| ==> s[k] as int < 0x10000
    ensures CharCodes(s) == seq(|s|, k requires 0 <= k < |s| => s[k] as int)
    decreases |s|
  {
    if s != [] {
      SingleUnitCodes(s[1..]);
    }
  }

  /** A character above 0xFFFF counts as two: U+1F600 is 0xD83D 0xDE00. */
  lemma SurrogatePairExample()
    ensures CharCodes("\U{1F600}") == [0xD83D, 0xDE00]
  {
  }

  /** `getValue`: the kind of an operand token, decided by its first
      character and then by trying a register, a label and a number in
      turn. A character constant must be one code unit long; an empty one,
      where the source produces NaN, is an error here. */
  function GetValue(copy: Copy, input: string): Result<Operand> {
    if |input| >= 1 && input[0] == '[' then
      var addr := Inner(input);
      match ParseRegister(addr)
      case Some(i) => Ok(Operand(RegAddress, Int(i)))
      case None =>
        if ParseLabel(addr).Some? then Ok(Operand(Address, Name(addr)))
        else
          var n :- ParseNumber(copy, addr);
          Ok(Operand(Address, Int(n)))
    else if |input| >= 1 && input[0] == '"' then
      Ok(Operand(String, Codes(CharCodes(Inner(input)))))
    else if |input| >= 1 && input[0] == '\'' then
      var units := CharCodes(Inner(input));
      if |units| > 1 then Err(CharConstantTooLong)
      else if |units| == 0 then Err(EmptyCharConstant)
      else Ok(Operand(Char, Int(units[0])))
    else
      match ParseRegister(input)
      case Some(i) => Ok(Operand(Register, Int(i)))
      case None =>
        if ParseLabel(input).Some? then Ok(Operand(Number, Name(input)))
        else
          var n :- ParseNumber(copy, input);
          Ok(Operand(Number, Int(n)))
  }

  /** A value the string-tagged copy passes as a number. */
  predicate IsNumberValue(n: int) {
    0 <= n <= 255 || n >= ExponentForm
  }

  /** The operands getValue can produce: registers by index, numbers that
      pass the range test, label names that are no register names, single
      code units, and well-formed UTF-16. */
  predicate WellFormedOperand(op: Operand) {
    match op.kind
    case Register | RegAddress => op.value.Int? && 0 <= op.value.n <= 4
    case Number | Address =>
      (op.value.Int? && IsNumberValue(op.value.n))
      || (op.value.Name? && IsIdentifier(op.value.name) && ParseRegister(op.value.name).None?)
    case Char => op.value.Int? && IsSingleUnit(op.value.n)
    case String => op.value.Codes? && IsUtf16(op.value.codes)
  }

  /** The canonical token of an operand. */
  function RenderOperand(op: Operand): string
    requires WellFormedOperand(op)
  {
    match op.kind
    case Register => RegisterName(op.value.n)
    case RegAddress => "[" + RegisterName(op.value.n) + "]"
    case Number => if op.value.Int? then Numeral(op.value.n, 10) else op.value.name
    case Address => "[" + (if op.value.Int? then Numeral(op.value.n, 10) else op.value.name) + "]"
    case Char => "'" + [op.value.n as char] + "'"
    case String => "\"" + FromUtf16(op.value.codes) + "\""
  }

  /** A string of exactly one code unit is one character up to 0xFFFF. */
  lemma OneUnit(c: string)
    requires |CharCodes(c)| == 1
    ensures |c| == 1 && CharCodes(c) == [c[0] as int] && IsSingleUnit(c[0] as int)
  {
    assert c != [];
    assert |Utf16(c[0])| >= 1;
  }

  /** Everything the string-tagged getValue produces is well formed. */
  lemma GetValueWellFormed(input: string)
    ensures GetValue(StringTagged, input).Ok? ==> WellFormedOperand(GetValue(StringTagged, input).value)
  {
    if |input| >= 1 && input[0] == '"' {
      CharCodesRoundTrip(Inner(input));
    } else if |input| >= 1 && input[0] == '\'' && |CharCodes(Inner(input))| == 1 {
      OneUnit(Inner(input));
    }
  }

  /** A decimal numeral is neither a register nor a label. */
  lemma DecimalIsNumber(n: nat)
    ensures ParseRegister(Numeral(n, 10)).None? && ParseLabel(Numeral(n, 10)).None?
  {
    NumeralDigits(n, 10);
    var t := Numeral(n, 10);
    assert IsDigit(t[0]);
    assert IsDigit(Upper(t)[0]);
  }

  /** A decimal operand that passes the string-tagged range test, bare or
      bracketed, reads back as a number. */
  lemma NumeralOperandAt(n: nat)
    requires IsNumberValue(n)
    ensures GetValue(StringTagged, Numeral(n, 10)) == Ok(Operand(Number, Int(n)))
    ensures GetValue(StringTagged, "[" + Numeral(n, 10) + "]") == Ok(Operand(Address, Int(n)))
  {
    var t := Numeral(n, 10);
    assert ParseNumber(StringTagged, t) == Ok(n) by {
      NotationsRoundTrip(n);
      RangeTests(n);
    }
    DecimalIsNumber(n);
    assert t[0] != '[' && t[0] != '"' && t[0] != '\'' by {
      NumeralDigits(n, 10);
      assert IsDigit(t[0]);
    }
    assert Inner("[" + t + "]") == t;
  }

  /** Every well-formed operand is read back from its canonical token by
      the string-tagged copy. */
  lemma GetValueRoundTrip(op: Operand)
    requires WellFormedOperand(op)
    ensures GetValue(StringTagged, RenderOperand(op)) == Ok(op)
  {
    var t := RenderOperand(op);
    match op.kind
    case Register =>
      assert t[0] != '[' && t[0] != '"' && t[0] != '\'';
    case RegAddress =>
      assert t[0] == '[' && Inner(t) == RegisterName(op.value.n);
      RegisterNameReads(op.value.n);
    case Number =>
      if op.value.Int? {
        NumeralOperandAt(op.value.n);
      } else {
        assert IsLetter(t[0]);
      }
    case Address =>
      if op.value.Int? {
        NumeralOperandAt(op.value.n);
      } else {
        assert Inner(t) == op.value.name;
      }
    case Char =>
      var c := op.value.n as char;
      assert Inner(t) == [c];
      assert CharCodes([c]) == Utf16(c) + CharCodes([]);
    case String =>
      var cs := op.value.codes;
      assert Inner(t) == FromUtf16(cs);
      FromUtf16RoundTrip(cs);
  }

  /** The enum-tagged copies classify every token as the string-tagged one
      does, except a number of ExponentForm or more, which they refuse. */
  lemma GetValueCopies(input: string)
    ensures var s := GetValue(StringTagged, input);
      GetValue(EnumTagged, input)
        == if s.Ok? && s.value.value.Int? && s.value.value.n >= ExponentForm
           then Err(NumberTooHigh(s.value.value.n)) else s
  {
    if |input| >= 1 && input[0] == '[' {
      ParseNumberCopies(Inner(input));
    } else if |input| >= 1 && input[0] == '"' {
    } else if |input| >= 1 && input[0] == '\'' {
      if |CharCodes(Inner(input))| == 1 {
        OneUnit(Inner(input));
      }
    } else {
      ParseNumberCopies(input);
    }
  }

  /** `0x64` is the number 100, not a register and not a label. */
  lemma HexLiteralExample(copy: Copy)
    ensures ParseNumber(copy, "0x64") == Ok(0x64)
    ensures ParseRegister("0x64") == None && ParseLabel("0x64") == None
  {
    assert "0x" + "64" == "0x64";
    assert ValueOf("64", 16) == 0x64 by {
      assert "64"[..1] == "6";
    }
    HexAt("64");
    assert !IsLetter("0x64"[0]);
  }

  /** The bracketed classifications the documentation lists: a register,
      a numeric address and a label address. */
  lemma GetValueBracketExamples(copy: Copy)
    ensures GetValue(copy, "[a]") == Ok(Operand(RegAddress, Int(0)))
    ensures GetValue(copy, "[0x64]") == Ok(Operand(Address, Int(0x64)))
    ensures GetValue(copy, "[x]") == Ok(Operand(Address, Name("x")))
  {
    assert Inner("[a]") == "a";
    assert Inner("[0x64]") == "0x64";
    HexLiteralExample(copy);
    assert Inner("[x]") == "x";
  }

  /** The quoted classifications: a string, a character, a character
      constant that is too long, and a character that takes two code units,
      too long as well. */
  lemma GetValueQuotedExamples(copy: Copy)
    ensures GetValue(copy, "\"ab\"") == Ok(Operand(String, Codes([0x61, 0x62])))
    ensures GetValue(copy, "'a'") == Ok(Operand(Char, Int(0x61)))
    ensures GetValue(copy, "'ab'") == Err(CharConstantTooLong)
    ensures GetValue(copy, "'\U{1F600}'") == Err(CharConstantTooLong)
  {
    assert Inner("\"ab\"") == "ab";
    assert CharCodes("ab") == [0x61, 0x62];
    assert Inner("'a'") == "a";
    assert Inner("'ab'") == "ab";
    assert Inner("'\U{1F600}'") == "\U{1F600}";
    SurrogatePairExample();
  }

  /** The bare classifications: a register, a number and a label. */
  lemma GetValueBareExamples(copy: Copy)
    ensures GetValue(copy, "a") == Ok(Operand(Register, Int(0)))
    ensures GetValue(copy, "0x64") == Ok(Operand(Number, Int(0x64)))
    ensures GetValue(copy, "x") == Ok(Operand(Number, Name("x")))
  {
    HexLiteralExample(copy);
  }

  // ---------------------------------------------------------------------
  // Arity.

  /** `getArguments`: the operands the mnemonic's descriptor calls for,
      classified; an unknown mnemonic has no descriptor and is not checked. */
  function GetArguments(copy: Copy, d: Option<Descriptor>, operand1: Option<string>, operand2: Option<string>)
    : Result<(Option<Operand>, Option<Operand>)>
  {
    match d
    case None => Ok((None, None))
    case Some(desc) =>
      if desc.unary && !desc.binary then
        if operand1.Some? && operand2.None? then
          var p1 :- GetValue(copy, operand1.value);
          Ok((Some(p1), None))
        else Err(WrongOperandCount(1))
      else if !desc.unary && desc.binary then
        if operand1.Some? && operand2.Some? then
          var p1 :- GetValue(copy, operand1.value);
          var p2 :- GetValue(copy, operand2.value);
          Ok((Some(p1), Some(p2)))
        else Err(WrongOperandCount(2))
      else if !desc.unary && !desc.binary then
        if operand1.Some? || operand2.Some? then Err(WrongOperandCount(0))
        else Ok((None, None))
      else Ok((None, None))
  }

  /** Whether the operands present fit the arity. */
  predicate FitsArity(n: nat, operand1: Option<string>, operand2: Option<string>) {
    if n == 0 then operand1.None? && operand2.None?
    else if n == 1 then operand1.Some? && operand2.None?
    else operand1.Some? && operand2.Some?
  }

  /** For a mnemonic of the table, getArguments fails with a count error
      exactly when the operands present do not fit its arity; otherwise it
      yields one classified operand per required operand, in order, or the
      first classification error. */
  lemma GetArgumentsArity(copy: Copy, keyword: string, operand1: Option<string>, operand2: Option<string>)
    requires Lookup(keyword).Some?
    ensures var n := Arity(Lookup(keyword).value);
      var r := GetArguments(copy, Lookup(keyword), operand1, operand2);
      && (r.Err? && r.error == WrongOperandCount(n) <==> !FitsArity(n, operand1, operand2))
      && (FitsArity(n, operand1, operand2) && n >= 1 ==>
            (r.Ok? <==> GetValue(copy, operand1.value).Ok? && (n == 2 ==> GetValue(copy, operand2.value).Ok?)))
      && (r.Ok? ==> r.value.0 == (if n >= 1 then Some(GetValue(copy, operand1.value).value) else None))
      && (r.Ok? ==> r.value.1 == (if n == 2 then Some(GetValue(copy, operand2.value).value) else None))
  {
    TableShape(keyword);
    var n := Arity(Lookup(keyword).value);
    if n >= 1 && FitsArity(n, operand1, operand2) {
      NotCountError(copy, operand1.value);
      if n == 2 {
        NotCountError(copy, operand2.value);
      }
    }
  }

  /** getValue never reports an arity error. */
  lemma NotCountError(copy: Copy, input: string)
    ensures GetValue(copy, input).Err? ==> !GetValue(copy, input).error.WrongOperandCount?
  {
  }
}
