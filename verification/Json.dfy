/** The JSON text format of RFC 8259, as serde_json prints and parses it: compact printing, and a parser for every
    document whose numbers are integers. */
module Json {
  import opened Basics

  // ---------------------------------------------------------------------------------------------------------------
  // UTF-8 (RFC 3629): the text of a JSON string must be well-formed
  // ---------------------------------------------------------------------------------------------------------------

  predicate IsContinuation(b: byte) {
    0x80 <= b < 0xC0
  }

  predicate ValidUtf8(s: Bytes) {
    if s == [] then true
    else if s[0] < 0x80 then ValidUtf8(s[1..])
    else if 0xC2 <= s[0] < 0xE0 then |s| >= 2 && IsContinuation(s[1]) && ValidUtf8(s[2..])
    else if 0xE0 <= s[0] < 0xF0 then
      && |s| >= 3 && IsContinuation(s[1]) && IsContinuation(s[2])
      && (s[0] == 0xE0 ==> s[1] >= 0xA0)   // no overlong form
      && (s[0] == 0xED ==> s[1] < 0xA0)    // no surrogate
      && ValidUtf8(s[3..])
    else if 0xF0 <= s[0] < 0xF5 then
      && |s| >= 4 && IsContinuation(s[1]) && IsContinuation(s[2]) && IsContinuation(s[3])
      && (s[0] == 0xF0 ==> s[1] >= 0x90)
      && (s[0] == 0xF4 ==> s[1] < 0x90)
      && ValidUtf8(s[4..])
    else false
  }

  /** A Rust `String`. */
  type Text = s: Bytes | ValidUtf8(s)

  predicate IsAscii(s: Bytes) {
    forall b <- s :: b < 0x80
  }

  lemma {:induction false} AsciiIsUtf8(s: Bytes)
    requires IsAscii(s)
    ensures ValidUtf8(s)
  {
    if s != [] {
      assert s[0] in s;
      forall b | b in s[1..] ensures b < 0x80 {
        assert b in s;
      }
      AsciiIsUtf8(s[1..]);
    }
  }

  // ---------------------------------------------------------------------------------------------------------------
  // Values and their printed form
  // ---------------------------------------------------------------------------------------------------------------

  datatype Json =
    | Null
    | Bool(b: bool)
    | Num(n: int)
    | Str(text: Text)
    | Arr(elems: seq<Json>)
    | Obj(fields: seq<Field>)

  datatype Field = Field(name: Text, value: Json)

  const QUOTE: byte := '"' as int
  const BACKSLASH: byte := '\\' as int
  const COMMA: byte := ',' as int
  const COLON: byte := ':' as int
  const OPEN_BRACKET: byte := '[' as int
  const CLOSE_BRACKET: byte := ']' as int
  const OPEN_BRACE: byte := '{' as int
  const CLOSE_BRACE: byte := '}' as int
  const MINUS: byte := '-' as int
  const ZERO: byte := '0' as int

  const NULL_LITERAL: Bytes := ['n' as int, 'u' as int, 'l' as int, 'l' as int]
  const TRUE_LITERAL: Bytes := ['t' as int, 'r' as int, 'u' as int, 'e' as int]
  const FALSE_LITERAL: Bytes := ['f' as int, 'a' as int, 'l' as int, 's' as int, 'e' as int]

  predicate IsDigit(b: byte) {
    ZERO <= b <= ZERO + 9
  }

  function HexDigit(n: nat): byte
    requires n < 16
  {
    if n < 10 then ZERO + n else 'a' as int + (n - 10)
  }

  /** Section 7: the two-character escapes, `\u00xx` for the other control characters, everything else as it is. */
  function EscapeByte(b: byte): Bytes {
    if b == QUOTE || b == BACKSLASH then [BACKSLASH, b]
    else if b == 8 then [BACKSLASH, 'b' as int]
    else if b == 9 then [BACKSLASH, 't' as int]
    else if b == 10 then [BACKSLASH, 'n' as int]
    else if b == 12 then [BACKSLASH, 'f' as int]
    else if b == 13 then [BACKSLASH, 'r' as int]
    else if b < 0x20 then [BACKSLASH, 'u' as int, ZERO, ZERO, HexDigit(b / 16), HexDigit(b % 16)]
    else [b]
  }

  function Escape(s: Bytes): Bytes {
    if s == [] then [] else EscapeByte(s[0]) + Escape(s[1..])
  }

  function PrintString(s: Bytes): Bytes {
    [QUOTE] + Escape(s) + [QUOTE]
  }

  function PrintNat(n: nat): (r: Bytes)
    ensures r != [] && IsDigit(r[0])
  {
    if n < 10 then [ZERO + n] else PrintNat(n / 10) + [ZERO + n % 10]
  }

  function PrintInt(n: int): (r: Bytes)
    ensures r != []
    ensures if n < 0 then r[0] == MINUS else IsDigit(r[0])
  {
    if n < 0 then [MINUS] + PrintNat(-n) else PrintNat(n)
  }

  function Print(j: Json): (r: Bytes)
    ensures r != [] && r[0] !in {CLOSE_BRACKET, CLOSE_BRACE, COMMA} && !IsSpace(r[0])
    decreases j, 0
  {
    match j
    case Null => NULL_LITERAL
    case Bool(b) => if b then TRUE_LITERAL else FALSE_LITERAL
    case Num(n) => PrintInt(n)
    case Str(s) => PrintString(s)
    case Arr(elems) => [OPEN_BRACKET] + PrintElems(elems) + [CLOSE_BRACKET]
    case Obj(fields) => [OPEN_BRACE] + PrintFields(fields) + [CLOSE_BRACE]
  }

  function PrintElems(elems: seq<Json>): Bytes
    decreases elems, 1
  {
    if elems == [] then []
    else if |elems| == 1 then Print(elems[0])
    else Print(elems[0]) + [COMMA] + PrintElems(elems[1..])
  }

  function PrintFields(fields: seq<Field>): Bytes
    decreases fields, 1
  {
    if fields == [] then []
    else if |fields| == 1 then PrintField(fields[0])
    else PrintField(fields[0]) + [COMMA] + PrintFields(fields[1..])
  }

  function PrintField(f: Field): Bytes
    decreases f, 1
  {
    PrintString(f.name) + [COLON] + Print(f.value)
  }

  // ---------------------------------------------------------------------------------------------------------------
  // Parsing
  // ---------------------------------------------------------------------------------------------------------------

  /** What a parser makes of the front of its input, and the input that is left. */
  datatype Parsed<+T> = Fail | Done(value: T, rest: Bytes)

  predicate IsSpace(b: byte) {
    b == 9 || b == 10 || b == 13 || b == 32
  }

  function SkipSpace(s: Bytes): (r: Bytes)
    ensures |r| <= |s|
    ensures r != [] ==> !IsSpace(r[0])
  {
    if s != [] && IsSpace(s[0]) then SkipSpace(s[1..]) else s
  }

  function HexValue(b: byte): Option<nat> {
    if IsDigit(b) then Some(b - ZERO)
    else if 'a' as int <= b <= 'f' as int then Some(b - 'a' as int + 10)
    else if 'A' as int <= b <= 'F' as int then Some(b - 'A' as int + 10)
    else None
  }

  function Hex4(s: Bytes): (r: Option<nat>)
    ensures r.Some? ==> |s| >= 4 && r.value < 0x10000
  {
    if |s| < 4 then None
    else
      match (HexValue(s[0]), HexValue(s[1]), HexValue(s[2]), HexValue(s[3]))
      case (Some(a), Some(b), Some(c), Some(d)) =>
        if a < 16 && b < 16 && c < 16 && d < 16 then Some(((a * 16 + b) * 16 + c) * 16 + d) else None
      case _ => None
  }

  function Utf8Of(code: nat): Bytes
    requires code < 0x110000
  {
    if code < 0x80 then [code]
    else if code < 0x800 then [0xC0 + code / 64, 0x80 + code % 64]
    else if code < 0x10000 then [0xE0 + code / 4096, 0x80 + code / 64 % 64, 0x80 + code % 64]
    else [0xF0 + code / 262144, 0x80 + code / 4096 % 64, 0x80 + code / 64 % 64, 0x80 + code % 64]
  }

  /** What follows `\u`: a code unit, or a high and a low surrogate that make one character. */
  function ParseUnicode(s: Bytes): (r: Parsed<Bytes>)
    ensures r.Done? ==> |r.rest| < |s|
  {
    match Hex4(s)
    case None => Fail
    case Some(c) =>
      if 0xDC00 <= c < 0xE000 then Fail
      else if c < 0xD800 || 0xE000 <= c then Done(Utf8Of(c), s[4..])
      else if |s| < 6 || s[4] != BACKSLASH || s[5] != 'u' as int then Fail
      else
        match Hex4(s[6..])
        case None => Fail
        case Some(low) =>
          if 0xDC00 <= low < 0xE000
          then Done(Utf8Of(0x10000 + (c - 0xD800) * 1024 + (low - 0xDC00)), s[10..])
          else Fail
  }

  /** What follows a backslash. */
  function ParseEscape(s: Bytes): (r: Parsed<Bytes>)
    ensures r.Done? ==> |r.rest| < |s|
  {
    if s == [] then Fail
    else if s[0] == QUOTE || s[0] == BACKSLASH || s[0] == '/' as int then Done([s[0]], s[1..])
    else if s[0] == 'b' as int then Done([8], s[1..])
    else if s[0] == 't' as int then Done([9], s[1..])
    else if s[0] == 'n' as int then Done([10], s[1..])
    else if s[0] == 'f' as int then Done([12], s[1..])
    else if s[0] == 'r' as int then Done([13], s[1..])
    else if s[0] == 'u' as int then ParseUnicode(s[1..])
    else Fail
  }

  /** What follows an opening quote, up to and including the closing one. */
  function ParseChars(s: Bytes): (r: Parsed<Bytes>)
    ensures r.Done? ==> |r.rest| < |s|
    decreases |s|
  {
    if s == [] then Fail
    else if s[0] == QUOTE then Done([], s[1..])
    else if s[0] < 0x20 then Fail
    else if s[0] == BACKSLASH then
      match ParseEscape(s[1..])
      case Fail => Fail
      case Done(v, rest) => Prepend(v, ParseChars(rest))
    else Prepend([s[0]], ParseChars(s[1..]))
  }

  function Prepend(v: Bytes, p: Parsed<Bytes>): Parsed<Bytes> {
    match p
    case Fail => Fail
    case Done(w, rest) => Done(v + w, rest)
  }

  function ParseText(s: Bytes): (r: Parsed<Text>)
    ensures r.Done? ==> |r.rest| < |s|
  {
    match ParseChars(s)
    case Fail => Fail
    case Done(v, rest) => if ValidUtf8(v) then Done(v, rest) else Fail
  }

  function LeadingDigits(s: Bytes): (k: nat)
    ensures k <= |s|
    ensures forall i | 0 <= i < k :: IsDigit(s[i])
    ensures k < |s| ==> !IsDigit(s[k])
  {
    if s == [] || !IsDigit(s[0]) then 0 else 1 + LeadingDigits(s[1..])
  }

  function NatOf(digits: Bytes): nat
    requires forall d <- digits :: IsDigit(d)
  {
    if digits == [] then 0
    else
      var last: int := digits[|digits| - 1];
      assert IsDigit(digits[|digits| - 1]);
      NatOf(digits[..|digits| - 1]) * 10 + (last - ZERO)
  }

  /** Section 6, integers only: no leading zero, and `-0` is not an integer to serde_json. */
  function ParseNat(s: Bytes): (r: Parsed<nat>)
    ensures r.Done? ==> |r.rest| < |s|
  {
    var k := LeadingDigits(s);
    if k == 0 || (k > 1 && s[0] == ZERO) then Fail else Done(NatOf(s[..k]), s[k..])
  }

  function ParseInt(s: Bytes): (r: Parsed<Json>)
    ensures r.Done? ==> |r.rest| < |s| && r.value.Num?
  {
    if s != [] && s[0] == MINUS then
      match ParseNat(s[1..])
      case Fail => Fail
      case Done(n, rest) => if n == 0 then Fail else Done(Num(0 - (n as int)), rest)
    else
      match ParseNat(s)
      case Fail => Fail
      case Done(n, rest) => Done(Num(n), rest)
  }

  function ParseLiteral(literal: Bytes, value: Json, s: Bytes): (r: Parsed<Json>)
    requires literal != []
    ensures r.Done? ==> |r.rest| < |s|
  {
    if literal <= s then Done(value, s[|literal|..]) else Fail
  }

  function ParseValue(input: Bytes): (r: Parsed<Json>)
    ensures r.Done? ==> |r.rest| < |input|
    decreases |input|, 0
  {
    var s := SkipSpace(input);
    if s == [] then Fail
    else if s[0] == 'n' as int then ParseLiteral(NULL_LITERAL, Null, s)
    else if s[0] == 't' as int then ParseLiteral(TRUE_LITERAL, Bool(true), s)
    else if s[0] == 'f' as int then ParseLiteral(FALSE_LITERAL, Bool(false), s)
    else if s[0] == QUOTE then
      match ParseText(s[1..])
      case Fail => Fail
      case Done(v, rest) => Done(Str(v), rest)
    else if s[0] == OPEN_BRACKET then ParseArray(s[1..])
    else if s[0] == OPEN_BRACE then ParseObject(s[1..])
    else ParseInt(s)
  }

  function ParseArray(s: Bytes): (r: Parsed<Json>)
    ensures r.Done? ==> |r.rest| < |s| && r.value.Arr?
    decreases |s|, 2
  {
    var inner := SkipSpace(s);
    if inner != [] && inner[0] == CLOSE_BRACKET then Done(Arr([]), inner[1..])
    else
      match ParseElems(s)
      case Fail => Fail
      case Done(elems, rest) => Done(Arr(elems), rest)
  }

  /** One or more elements, up to and including the closing bracket. */
  function ParseElems(s: Bytes): (r: Parsed<seq<Json>>)
    ensures r.Done? ==> |r.rest| < |s|
    decreases |s|, 1
  {
    match ParseValue(s)
    case Fail => Fail
    case Done(v, rest) =>
      var more := SkipSpace(rest);
      if more != [] && more[0] == CLOSE_BRACKET then Done([v], more[1..])
      else if more != [] && more[0] == COMMA then
        match ParseElems(more[1..])
        case Fail => Fail
        case Done(vs, rest') => Done([v] + vs, rest')
      else Fail
  }

  function ParseObject(s: Bytes): (r: Parsed<Json>)
    ensures r.Done? ==> |r.rest| < |s| && r.value.Obj?
    decreases |s|, 3
  {
    var inner := SkipSpace(s);
    if inner != [] && inner[0] == CLOSE_BRACE then Done(Obj([]), inner[1..])
    else
      match ParseFields(s)
      case Fail => Fail
      case Done(fields, rest) => Done(Obj(fields), rest)
  }

  /** One or more members, up to and including the closing brace. */
  function ParseFields(s: Bytes): (r: Parsed<seq<Field>>)
    ensures r.Done? ==> |r.rest| < |s|
    decreases |s|, 2
  {
    match ParseField(s)
    case Fail => Fail
    case Done(f, rest) =>
      var more := SkipSpace(rest);
      if more != [] && more[0] == CLOSE_BRACE then Done([f], more[1..])
      else if more != [] && more[0] == COMMA then
        match ParseFields(more[1..])
        case Fail => Fail
        case Done(fs, rest') => Done([f] + fs, rest')
      else Fail
  }

  function ParseField(s: Bytes): (r: Parsed<Field>)
    ensures r.Done? ==> |r.rest| < |s|
    decreases |s|, 1
  {
    var key := SkipSpace(s);
    if key == [] || key[0] != QUOTE then Fail
    else
      match ParseText(key[1..])
      case Fail => Fail
      case Done(name, rest) =>
        var colon := SkipSpace(rest);
        if colon == [] || colon[0] != COLON then Fail
        else
          match ParseValue(colon[1..])
          case Fail => Fail
          case Done(v, rest') => Done(Field(name, v), rest')
  }

  /** `from_slice`: one value and nothing but white space after it. */
  function Parse(s: Bytes): Option<Json> {
    match ParseValue(s)
    case Fail => None
    case Done(j, rest) => if SkipSpace(rest) == [] then Some(j) else None
  }

  // ---------------------------------------------------------------------------------------------------------------
  // Printing then parsing is the identity
  // ---------------------------------------------------------------------------------------------------------------

  lemma HexDigitValue(n: nat)
    requires n < 16
    ensures HexValue(HexDigit(n)) == Some(n)
  {
  }

  lemma ParseEscapedByte(b: byte, rest: Bytes)
    requires b < 0x20 || b == QUOTE || b == BACKSLASH
    ensures EscapeByte(b)[0] == BACKSLASH
    ensures ParseEscape(EscapeByte(b)[1..] + rest) == Done([b], rest)
  {
    var s := EscapeByte(b)[1..] + rest;
    if |EscapeByte(b)| == 2 {
      assert s[1..] == rest;
    } else {
      var hex := s[1..];
      HexDigitValue(b / 16);
      HexDigitValue(b % 16);
      assert hex == [ZERO, ZERO, HexDigit(b / 16), HexDigit(b % 16)] + rest;
      assert Hex4(hex) == Some(b);
      assert hex[4..] == rest;
    }
  }

  /** An escaped byte is read back as the byte, and reading goes on after it. */
  lemma ParseCharsStep(b: byte, tail: Bytes)
    ensures ParseChars(EscapeByte(b) + tail) == Prepend([b], ParseChars(tail))
  {
    var input := EscapeByte(b) + tail;
    if b < 0x20 || b == QUOTE || b == BACKSLASH {
      ParseEscapedByte(b, tail);
      assert input[1..] == EscapeByte(b)[1..] + tail;
    } else {
      assert input[1..] == tail;
    }
  }

  lemma {:induction false} ParseEscapedChars(s: Bytes, rest: Bytes)
    ensures ParseChars(Escape(s) + ([QUOTE] + rest)) == Done(s, rest)
  {
    var end := [QUOTE] + rest;
    if s == [] {
      assert Escape(s) + end == end && end[1..] == rest;
    } else {
      assert Escape(s) + end == EscapeByte(s[0]) + (Escape(s[1..]) + end);
      hide EscapeByte, ParseChars;
      ParseCharsStep(s[0], Escape(s[1..]) + end);
      ParseEscapedChars(s[1..], rest);
      assert [s[0]] + s[1..] == s;
    }
  }

  lemma ParsePrintedText(s: Text, rest: Bytes)
    ensures PrintString(s)[0] == QUOTE
    ensures ParseText((PrintString(s) + rest)[1..]) == Done(s, rest)
  {
    assert (PrintString(s) + rest)[1..] == Escape(s) + ([QUOTE] + rest);
    ParseEscapedChars(s, rest);
  }

  lemma {:induction false} PrintedDigits(n: nat)
    ensures forall d <- PrintNat(n) :: IsDigit(d)
    ensures NatOf(PrintNat(n)) == n
    ensures |PrintNat(n)| > 1 ==> PrintNat(n)[0] != ZERO
  {
    if n >= 10 {
      PrintedDigits(n / 10);
      var r := PrintNat(n);
      assert r[..|r| - 1] == PrintNat(n / 10);
    }
  }

  lemma {:induction false} LeadingDigitsOf(digits: Bytes, rest: Bytes)
    requires forall d <- digits :: IsDigit(d)
    requires rest == [] || !IsDigit(rest[0])
    ensures LeadingDigits(digits + rest) == |digits|
  {
    if digits == [] {
      assert digits + rest == rest;
    } else {
      assert (digits + rest)[1..] == digits[1..] + rest;
      LeadingDigitsOf(digits[1..], rest);
    }
  }

  lemma ParsePrintedNat(n: nat, rest: Bytes)
    requires rest == [] || !IsDigit(rest[0])
    ensures ParseNat(PrintNat(n) + rest) == Done(n, rest)
  {
    var digits := PrintNat(n);
    PrintedDigits(n);
    LeadingDigitsOf(digits, rest);
    assert (digits + rest)[..|digits|] == digits;
    assert (digits + rest)[|digits|..] == rest;
  }

  lemma ParsePrintedInt(n: int, rest: Bytes)
    requires rest == [] || !IsDigit(rest[0])
    ensures ParseInt(PrintInt(n) + rest) == Done(Num(n), rest)
  {
    hide PrintNat, ParseNat;
    if n < 0 {
      ParsePrintedNat(-n, rest);
      assert (PrintInt(n) + rest)[1..] == PrintNat(-n) + rest;
    } else {
      ParsePrintedNat(n, rest);
    }
  }

  /** A number ends where its digits end, so what follows it must not be a digit. */
  predicate Delimits(j: Json, rest: Bytes) {
    j.Num? ==> rest == [] || !IsDigit(rest[0])
  }

  lemma ParsePrintedLiteral(j: Json, rest: Bytes)
    requires j.Null? || j.Bool?
    ensures ParseValue(Print(j) + rest) == Done(j, rest)
  {
    var s := Print(j) + rest;
    assert SkipSpace(s) == s;
    assert s[|Print(j)|..] == rest;
  }

  lemma ParsePrintedNum(n: int, rest: Bytes)
    requires rest == [] || !IsDigit(rest[0])
    ensures ParseValue(Print(Num(n)) + rest) == Done(Num(n), rest)
  {
    ParsePrintedInt(n, rest);
    hide ParseInt, PrintInt;
    assert SkipSpace(PrintInt(n) + rest) == PrintInt(n) + rest;
  }

  lemma ParsePrintedStr(text: Text, rest: Bytes)
    ensures ParseValue(Print(Str(text)) + rest) == Done(Str(text), rest)
  {
    ParsePrintedText(text, rest);
    hide PrintString, ParseText;
    assert SkipSpace(PrintString(text) + rest) == PrintString(text) + rest;
  }

  lemma {:induction false} ParsePrinted(j: Json, rest: Bytes)
    requires Delimits(j, rest)
    ensures ParseValue(Print(j) + rest) == Done(j, rest)
    decreases j, 0
  {
    match j
    case Arr(elems) =>
      ParsePrintedArray(elems, rest);
      PrintedHead(j, rest);
    case Obj(fields) =>
      ParsePrintedObject(fields, rest);
      PrintedHead(j, rest);
    case Num(n) => ParsePrintedNum(n, rest);
    case Str(text) => ParsePrintedStr(text, rest);
    case _ => ParsePrintedLiteral(j, rest);
  }

  /** The first byte of an array or an object decides which parser sees the rest. */
  lemma PrintedHead(j: Json, rest: Bytes)
    requires j.Arr? || j.Obj?
    ensures SkipSpace(Print(j) + rest) == Print(j) + rest
    ensures (Print(j) + rest)[0] == if j.Arr? then OPEN_BRACKET else OPEN_BRACE
    ensures (Print(j) + rest)[1..]
         == (if j.Arr? then PrintElems(j.elems) + [CLOSE_BRACKET] else PrintFields(j.fields) + [CLOSE_BRACE]) + rest
  {
  }

  lemma {:induction false} ParsePrintedArray(elems: seq<Json>, rest: Bytes)
    ensures ParseArray(PrintElems(elems) + [CLOSE_BRACKET] + rest) == Done(Arr(elems), rest)
    decreases elems, 2
  {
    var s := PrintElems(elems) + [CLOSE_BRACKET] + rest;
    if elems == [] {
      assert s == [CLOSE_BRACKET] + rest;
    } else {
      ParsePrintedElems(elems, rest);
      assert s[0] == Print(elems[0])[0];
    }
  }

  lemma {:induction false} ParsePrintedObject(fields: seq<Field>, rest: Bytes)
    ensures ParseObject(PrintFields(fields) + [CLOSE_BRACE] + rest) == Done(Obj(fields), rest)
    decreases fields, 3
  {
    var s := PrintFields(fields) + [CLOSE_BRACE] + rest;
    if fields == [] {
      assert s == [CLOSE_BRACE] + rest;
    } else {
      ParsePrintedFields(fields, rest);
      assert s[0] == PrintField(fields[0])[0] == QUOTE;
    }
  }

  lemma {:induction false} ParsePrintedElems(elems: seq<Json>, rest: Bytes)
    requires elems != []
    ensures ParseElems(PrintElems(elems) + [CLOSE_BRACKET] + rest) == Done(elems, rest)
    decreases elems, 1
  {
    var v := elems[0];
    if |elems| == 1 {
      var after := [CLOSE_BRACKET] + rest;
      Regroup3(Print(v), [CLOSE_BRACKET], rest);
      ParsePrinted(v, after);
      assert SkipSpace(after) == after && after[1..] == rest && elems == [v];
      hide Print, ParseElems;
      LastElem(Print(v) + after, v, after);
    } else {
      var more := PrintElems(elems[1..]) + [CLOSE_BRACKET] + rest;
      var after := [COMMA] + more;
      ParsePrinted(v, after);
      ParsePrintedElems(elems[1..], rest);
      assert SkipSpace(after) == after && after[1..] == more && elems == [v] + elems[1..];
      Regroup5(Print(v), [COMMA], PrintElems(elems[1..]), [CLOSE_BRACKET], rest);
      hide Print, ParseElems;
      NextElem(Print(v) + after, v, after, elems[1..], rest);
    }
  }

  lemma LastElem(s: Bytes, v: Json, after: Bytes)
    requires ParseValue(s) == Done(v, after)
    requires SkipSpace(after) != [] && SkipSpace(after)[0] == CLOSE_BRACKET
    ensures ParseElems(s) == Done([v], SkipSpace(after)[1..])
  {
  }

  lemma NextElem(s: Bytes, v: Json, after: Bytes, vs: seq<Json>, rest: Bytes)
    requires ParseValue(s) == Done(v, after)
    requires SkipSpace(after) != [] && SkipSpace(after)[0] == COMMA
    requires ParseElems(SkipSpace(after)[1..]) == Done(vs, rest)
    ensures ParseElems(s) == Done([v] + vs, rest)
  {
  }

  lemma {:induction false} ParsePrintedFields(fields: seq<Field>, rest: Bytes)
    requires fields != []
    ensures ParseFields(PrintFields(fields) + [CLOSE_BRACE] + rest) == Done(fields, rest)
    decreases fields, 2
  {
    var f := fields[0];
    if |fields| == 1 {
      var after := [CLOSE_BRACE] + rest;
      Regroup3(PrintField(f), [CLOSE_BRACE], rest);
      ParsePrintedField(f, after);
      assert SkipSpace(after) == after && after[1..] == rest && fields == [f];
      hide PrintField, ParseFields;
      LastField(PrintField(f) + after, f, after);
    } else {
      var more := PrintFields(fields[1..]) + [CLOSE_BRACE] + rest;
      var after := [COMMA] + more;
      ParsePrintedField(f, after);
      ParsePrintedFields(fields[1..], rest);
      assert SkipSpace(after) == after && after[1..] == more && fields == [f] + fields[1..];
      Regroup5(PrintField(f), [COMMA], PrintFields(fields[1..]), [CLOSE_BRACE], rest);
      hide PrintField, ParseFields;
      NextField(PrintField(f) + after, f, after, fields[1..], rest);
    }
  }

  lemma Regroup3(a: Bytes, b: Bytes, c: Bytes)
    ensures a + b + c == a + (b + c)
  {
  }

  lemma Regroup5(a: Bytes, b: Bytes, c: Bytes, d: Bytes, e: Bytes)
    ensures a + b + c + d + e == a + (b + (c + d + e))
  {
  }

  lemma LastField(s: Bytes, f: Field, after: Bytes)
    requires ParseField(s) == Done(f, after)
    requires SkipSpace(after) != [] && SkipSpace(after)[0] == CLOSE_BRACE
    ensures ParseFields(s) == Done([f], SkipSpace(after)[1..])
  {
  }

  lemma NextField(s: Bytes, f: Field, after: Bytes, fs: seq<Field>, rest: Bytes)
    requires ParseField(s) == Done(f, after)
    requires SkipSpace(after) != [] && SkipSpace(after)[0] == COMMA
    requires ParseFields(SkipSpace(after)[1..]) == Done(fs, rest)
    ensures ParseFields(s) == Done([f] + fs, rest)
  {
  }

  lemma {:induction false} ParsePrintedField(f: Field, rest: Bytes)
    requires rest != [] && !IsDigit(rest[0])
    ensures ParseField(PrintField(f) + rest) == Done(f, rest)
    decreases f, 1
  {
    ParsePrinted(f.value, rest);
    FieldFrom(f.name, f.value, Print(f.value), rest);
  }

  lemma FieldFrom(name: Text, value: Json, printed: Bytes, rest: Bytes)
    requires ParseValue(printed + rest) == Done(value, rest)
    ensures ParseField(PrintString(name) + [COLON] + printed + rest) == Done(Field(name, value), rest)
  {
    var colon := [COLON] + (printed + rest);
    var key := PrintString(name) + colon;
    Regroup(PrintString(name), [COLON], printed, rest);
    ParsePrintedText(name, colon);
    assert SkipSpace(key) == key && SkipSpace(colon) == colon;
    FieldSteps(key, name, colon, value, rest);
  }

  lemma Regroup(a: Bytes, b: Bytes, c: Bytes, d: Bytes)
    ensures a + b + c + d == a + (b + (c + d))
  {
  }

  /** A member is a name, a colon and a value. */
  lemma FieldSteps(s: Bytes, name: Text, afterName: Bytes, value: Json, rest: Bytes)
    requires var key := SkipSpace(s); key != [] && key[0] == QUOTE && ParseText(key[1..]) == Done(name, afterName)
    requires var colon := SkipSpace(afterName);
             colon != [] && colon[0] == COLON && ParseValue(colon[1..]) == Done(value, rest)
    ensures ParseField(s) == Done(Field(name, value), rest)
  {
  }

  lemma ParsePrint(j: Json)
    ensures Parse(Print(j)) == Some(j)
  {
    ParsePrinted(j, []);
    assert Print(j) + [] == Print(j);
  }

  // ---------------------------------------------------------------------------------------------------------------
  // The printed form fits on one line
  // ---------------------------------------------------------------------------------------------------------------

  /** No control character, in particular no line feed. */
  predicate Printable(s: Bytes) {
    forall b <- s :: b >= 0x20
  }

  lemma {:induction false} EscapePrintable(s: Bytes)
    ensures Printable(Escape(s))
  {
    if s != [] {
      EscapePrintable(s[1..]);
    }
  }

  lemma {:induction false} PrintPrintable(j: Json)
    ensures Printable(Print(j))
    decreases j, 0
  {
    match j
    case Null =>
    case Bool(_) =>
    case Num(n) => PrintedDigits(if n < 0 then -n else n);
    case Str(text) => EscapePrintable(text);
    case Arr(elems) => PrintElemsPrintable(elems);
    case Obj(fields) => PrintFieldsPrintable(fields);
  }

  lemma {:induction false} PrintElemsPrintable(elems: seq<Json>)
    ensures Printable(PrintElems(elems))
    decreases elems, 1
  {
    if elems != [] {
      PrintPrintable(elems[0]);
      PrintElemsPrintable(elems[1..]);
      hide Print;
    }
  }

  lemma {:induction false} PrintFieldsPrintable(fields: seq<Field>)
    ensures Printable(PrintFields(fields))
    decreases fields, 1
  {
    if fields != [] {
      EscapePrintable(fields[0].name);
      PrintPrintable(fields[0].value);
      PrintFieldsPrintable(fields[1..]);
      hide Print, Escape;
    }
  }

  // ---------------------------------------------------------------------------------------------------------------
  // A document cannot be continued: what a parser makes of `p` it also makes of `p + q`
  // ---------------------------------------------------------------------------------------------------------------

  /** What a parser does to an input that continues: the same value, with the continuation left over. */
  function Extended<T>(r: Parsed<T>, q: Bytes): Parsed<T> {
    match r
    case Fail => Fail
    case Done(v, rest) => Done(v, rest + q)
  }

  lemma {:induction false} SkipSpaceExtends(p: Bytes, q: Bytes)
    requires SkipSpace(p) != []
    ensures SkipSpace(p + q) == SkipSpace(p) + q
  {
    if p != [] && IsSpace(p[0]) {
      assert (p + q)[1..] == p[1..] + q;
      SkipSpaceExtends(p[1..], q);
    }
  }

  lemma ParseUnicodeExtends(p: Bytes, q: Bytes)
    requires ParseUnicode(p).Done?
    ensures ParseUnicode(p + q) == Extended(ParseUnicode(p), q)
  {
    var s := p + q;
    assert s[..4] == p[..4] && s[4..] == p[4..] + q;
    assert Hex4(s) == Hex4(p);
    if 0xD800 <= Hex4(p).value < 0xE000 {
      assert s[6..] == p[6..] + q;
      assert Hex4(s[6..]) == Hex4(p[6..]);
      assert s[10..] == p[10..] + q;
    }
  }

  lemma ParseEscapeExtends(p: Bytes, q: Bytes)
    requires ParseEscape(p).Done?
    ensures ParseEscape(p + q) == Extended(ParseEscape(p), q)
  {
    assert (p + q)[1..] == p[1..] + q;
    hide ParseUnicode;
    if p[0] == 'u' as int {
      ParseUnicodeExtends(p[1..], q);
    }
  }

  lemma {:induction false} ParseCharsExtends(p: Bytes, q: Bytes)
    requires ParseChars(p).Done?
    ensures ParseChars(p + q) == Extended(ParseChars(p), q)
    decreases |p|
  {
    var s := p + q;
    assert s[1..] == p[1..] + q;
    if p[0] == QUOTE {
    } else if p[0] == BACKSLASH {
      ParseEscapeExtends(p[1..], q);
      hide ParseEscape;
      ParseCharsExtends(ParseEscape(p[1..]).rest, q);
    } else {
      ParseCharsExtends(p[1..], q);
    }
  }

  lemma {:induction false} LeadingDigitsExtends(p: Bytes, q: Bytes)
    requires LeadingDigits(p) < |p|
    ensures LeadingDigits(p + q) == LeadingDigits(p)
  {
    if IsDigit(p[0]) {
      assert (p + q)[1..] == p[1..] + q;
      LeadingDigitsExtends(p[1..], q);
    }
  }

  lemma ParseNatExtends(p: Bytes, q: Bytes)
    requires ParseNat(p).Done? && ParseNat(p).rest != []
    ensures ParseNat(p + q) == Extended(ParseNat(p), q)
  {
    var k := LeadingDigits(p);
    LeadingDigitsExtends(p, q);
    assert (p + q)[..k] == p[..k];
    assert (p + q)[k..] == p[k..] + q;
  }

  lemma ParseIntExtends(p: Bytes, q: Bytes)
    requires ParseInt(p).Done? && ParseInt(p).rest != []
    ensures ParseInt(p + q) == Extended(ParseInt(p), q)
  {
    if p[0] == MINUS {
      assert (p + q)[1..] == p[1..] + q;
      ParseNatExtends(p[1..], q);
    } else {
      ParseNatExtends(p, q);
    }
  }

  lemma {:induction false} ParseValueExtends(p: Bytes, q: Bytes)
    requires ParseValue(p).Done?
    requires ParseValue(p).value.Num? ==> ParseValue(p).rest != []
    ensures ParseValue(p + q) == Extended(ParseValue(p), q)
    decreases |p|, 0
  {
    var s := SkipSpace(p);
    SkipSpaceExtends(p, q);
    assert (s + q)[1..] == s[1..] + q;
    if s[0] == 'n' as int || s[0] == 't' as int || s[0] == 'f' as int {
      var k := if s[0] == 'f' as int then 5 else 4;
      assert (s + q)[..k] == s[..k];
      assert (s + q)[k..] == s[k..] + q;
    } else if s[0] == QUOTE {
      ParseCharsExtends(s[1..], q);
    } else if s[0] == OPEN_BRACKET {
      ParseArrayExtends(s[1..], q);
    } else if s[0] == OPEN_BRACE {
      ParseObjectExtends(s[1..], q);
    } else {
      ParseIntExtends(s, q);
    }
  }

  lemma {:induction false} ParseArrayExtends(p: Bytes, q: Bytes)
    requires ParseArray(p).Done?
    ensures ParseArray(p + q) == Extended(ParseArray(p), q)
    decreases |p|, 2
  {
    if SkipSpace(p) == [] {
      BlankFails(p);
    }
    SkipSpaceExtends(p, q);
    var inner := SkipSpace(p);
    if inner[0] == CLOSE_BRACKET {
      assert (inner + q)[1..] == inner[1..] + q;
    } else {
      ParseElemsExtends(p, q);
    }
  }

  lemma BlankFails(p: Bytes)
    requires SkipSpace(p) == []
    ensures ParseArray(p).Fail? && ParseObject(p).Fail?
  {
    assert ParseValue(p).Fail?;
    assert ParseField(p).Fail?;
  }

  /** How a list of elements begins. */
  lemma ElemsSplit(p: Bytes)
    requires ParseElems(p).Done?
    ensures ParseValue(p).Done? && SkipSpace(ParseValue(p).rest) != []
    ensures var v, more := ParseValue(p).value, SkipSpace(ParseValue(p).rest);
            if more[0] == CLOSE_BRACKET then ParseElems(p) == Done([v], more[1..])
            else more[0] == COMMA && ParseElems(more[1..]).Done?
                 && ParseElems(p) == Done([v] + ParseElems(more[1..]).value, ParseElems(more[1..]).rest)
  {
  }

  lemma {:induction false} ParseElemsExtends(p: Bytes, q: Bytes)
    requires ParseElems(p).Done?
    ensures ParseElems(p + q) == Extended(ParseElems(p), q)
    decreases |p|, 1
  {
    hide ParseElems, ParseValue, SkipSpace;
    ElemsSplit(p);
    var v := ParseValue(p);
    var more := SkipSpace(v.rest);
    NonBlankRest(v.rest);
    ParseValueExtends(p, q);
    SkipSpaceExtends(v.rest, q);
    assert (more + q)[1..] == more[1..] + q;
    if more[0] == COMMA {
      var vs := ParseElems(more[1..]);
      ParseElemsExtends(more[1..], q);
      NextElem(p + q, v.value, v.rest + q, vs.value, vs.rest + q);
    } else {
      LastElem(p + q, v.value, v.rest + q);
    }
  }

  lemma {:induction false} ParseObjectExtends(p: Bytes, q: Bytes)
    requires ParseObject(p).Done?
    ensures ParseObject(p + q) == Extended(ParseObject(p), q)
    decreases |p|, 3
  {
    if SkipSpace(p) == [] {
      BlankFails(p);
    }
    SkipSpaceExtends(p, q);
    var inner := SkipSpace(p);
    if inner[0] == CLOSE_BRACE {
      assert (inner + q)[1..] == inner[1..] + q;
    } else {
      ParseFieldsExtends(p, q);
    }
  }

  /** How a list of members begins. */
  lemma FieldsSplit(p: Bytes)
    requires ParseFields(p).Done?
    ensures ParseField(p).Done? && SkipSpace(ParseField(p).rest) != []
    ensures var f, more := ParseField(p).value, SkipSpace(ParseField(p).rest);
            if more[0] == CLOSE_BRACE then ParseFields(p) == Done([f], more[1..])
            else more[0] == COMMA && ParseFields(more[1..]).Done?
                 && ParseFields(p) == Done([f] + ParseFields(more[1..]).value, ParseFields(more[1..]).rest)
  {
  }

  lemma {:induction false} ParseFieldsExtends(p: Bytes, q: Bytes)
    requires ParseFields(p).Done?
    ensures ParseFields(p + q) == Extended(ParseFields(p), q)
    decreases |p|, 2
  {
    hide ParseFields, ParseField, SkipSpace;
    FieldsSplit(p);
    var f := ParseField(p);
    var more := SkipSpace(f.rest);
    NonBlankRest(f.rest);
    ParseFieldExtends(p, q);
    SkipSpaceExtends(f.rest, q);
    assert (more + q)[1..] == more[1..] + q;
    if more[0] == COMMA {
      var fs := ParseFields(more[1..]);
      ParseFieldsExtends(more[1..], q);
      NextField(p + q, f.value, f.rest + q, fs.value, fs.rest + q);
    } else {
      LastField(p + q, f.value, f.rest + q);
    }
  }

  lemma NonBlankRest(s: Bytes)
    requires SkipSpace(s) != []
    ensures s != []
  {
  }

  /** The steps by which a member was parsed. */
  lemma FieldParts(p: Bytes) returns (key: Bytes, name: Text, afterName: Bytes, colon: Bytes)
    requires ParseField(p).Done?
    ensures key == SkipSpace(p) && key != [] && key[0] == QUOTE && ParseText(key[1..]) == Done(name, afterName)
    ensures colon == SkipSpace(afterName) && colon != [] && colon[0] == COLON
    ensures ParseValue(colon[1..]).Done? && ParseValue(colon[1..]).rest == ParseField(p).rest
    ensures ParseField(p).value == Field(name, ParseValue(colon[1..]).value)
    ensures |colon[1..]| < |p|
  {
    hide ParseValue, ParseText, SkipSpace;
    key := SkipSpace(p);
    name, afterName := ParseText(key[1..]).value, ParseText(key[1..]).rest;
    colon := SkipSpace(afterName);
  }

  lemma TextExtends(p: Bytes, q: Bytes)
    requires ParseText(p).Done?
    ensures ParseText(p + q) == Extended(ParseText(p), q)
  {
    ParseCharsExtends(p, q);
    hide ParseChars, ValidUtf8;
  }

  lemma {:induction false} ParseFieldExtends(p: Bytes, q: Bytes)
    requires ParseField(p).Done?
    requires ParseField(p).rest != []
    ensures ParseField(p + q) == Extended(ParseField(p), q)
    decreases |p|, 1
  {
    hide ParseField, ParseValue, ParseText, SkipSpace;
    var key, name, rest, colon := FieldParts(p);
    SkipSpaceExtends(p, q);
    assert (key + q)[1..] == key[1..] + q;
    TextExtends(key[1..], q);
    SkipSpaceExtends(rest, q);
    assert (colon + q)[1..] == colon[1..] + q;
    ParseValueExtends(colon[1..], q);
    FieldSteps(p + q, name, rest + q, ParseField(p).value.value, ParseField(p).rest + q);
  }

  lemma {:induction false} BlankSuffix(p: Bytes, q: Bytes)
    requires SkipSpace(p + q) == []
    ensures SkipSpace(q) == []
  {
    if p == [] {
      assert p + q == q;
    } else {
      assert (p + q)[1..] == p[1..] + q;
      BlankSuffix(p[1..], q);
    }
  }

  /** A document other than a bare number can only be continued by white space. */
  lemma OnlyBlankContinues(p: Bytes, q: Bytes)
    requires Parse(p).Some? && !Parse(p).value.Num?
    requires Parse(p + q).Some?
    ensures SkipSpace(q) == []
  {
    ParseValueExtends(p, q);
    BlankSuffix(ParseValue(p).rest, q);
  }
}
