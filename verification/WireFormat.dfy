/** The texts on the wire, character by character: what the names and shapes of the printed messages are, told without the
    names and the printer. */
module WireFormat {
  import opened Basics
  import opened Json
  import opened Messages

  predicate IsAsciiText(s: string) {
    forall i | 0 <= i < |s| :: s[i] as int < 0x80
  }

  /** Characters that a JSON string shows as they are. */
  predicate IsPlain(s: string) {
    forall i | 0 <= i < |s| :: 0x20 <= s[i] as int < 0x80 && s[i] != '"' && s[i] != '\\'
  }

  lemma AsciiAppend(a: string, b: string)
    requires IsAsciiText(a) && IsAsciiText(b)
    ensures Ascii(a) + Ascii(b) == Ascii(a + b)
  {
  }

  // ---------------------------------------------------------------------------------------------------------------
  // Strings and numbers
  // ---------------------------------------------------------------------------------------------------------------

  /** Section 7 of RFC 8259, in the forms that are printed here. */
  function InString(b: byte): Bytes {
    if b == 0x22 then [0x5C, 0x22]
    else if b == 0x5C then [0x5C, 0x5C]
    else if b == 0x08 then [0x5C, 0x62]
    else if b == 0x0C then [0x5C, 0x66]
    else if b == 0x0A then [0x5C, 0x6E]
    else if b == 0x0D then [0x5C, 0x72]
    else if b == 0x09 then [0x5C, 0x74]
    else if b < 0x20 then [0x5C, 0x75, 0x30, 0x30] + Ascii(["0123456789abcdef"[b / 16]]) + Ascii(["0123456789abcdef"[b % 16]])
    else [b]
  }

  function InStrings(s: Bytes): Bytes {
    if s == [] then [] else InString(s[0]) + InStrings(s[1..])
  }

  lemma HexText(n: nat)
    requires n < 16
    ensures Ascii(["0123456789abcdef"[n]]) == [HexDigit(n)]
  {
  }

  lemma ByteText(b: byte)
    ensures EscapeByte(b) == InString(b)
  {
    if b < 0x20 {
      HexText(b / 16);
      HexText(b % 16);
    }
  }

  lemma {:induction false} EscapeText(s: Bytes)
    ensures Escape(s) == InStrings(s)
  {
    if s != [] {
      ByteText(s[0]);
      EscapeText(s[1..]);
    }
  }

  /** A string is printed between quotation marks, with just those bytes escaped that have to be. */
  lemma StringText(s: Bytes)
    ensures PrintString(s) == Ascii("\"") + InStrings(s) + Ascii("\"")
  {
    EscapeText(s);
  }

  /** The number that decimal digits stand for. */
  function Decimal(digits: Bytes): int {
    if digits == [] then 0
    else
      var n := |digits| - 1;
      10 * Decimal(digits[..n]) + digits[n] - 0x30
  }

  predicate AllDigits(s: Bytes) {
    forall i | 0 <= i < |s| :: 0x30 <= s[i] <= 0x39
  }

  lemma {:induction false} NatText(n: nat)
    ensures AllDigits(PrintNat(n)) && Decimal(PrintNat(n)) == n
    ensures PrintNat(n)[0] == 0x30 ==> n == 0 && PrintNat(n) == [0x30]
  {
    if n >= 10 {
      NatText(n / 10);
      var front := PrintNat(n / 10);
      assert PrintNat(n) == front + [ZERO + n % 10];
      assert PrintNat(n)[..|front|] == front;
    } else {
      assert PrintNat(n)[..0] == [];
    }
  }

  /** A number is printed in decimal, without leading zeros, behind a minus sign if it is negative. */
  lemma NumberText(n: int)
    ensures if n < 0 then PrintInt(n) == [0x2D] + PrintNat(-n) else PrintInt(n) == PrintNat(n)
    ensures var digits := PrintNat(if n < 0 then -n else n);
            AllDigits(digits) && Decimal(digits) == (if n < 0 then -n else n) && (digits[0] == 0x30 ==> n == 0 && |digits| == 1)
  {
    NatText(if n < 0 then -n else n);
  }

  // ---------------------------------------------------------------------------------------------------------------
  // Objects
  // ---------------------------------------------------------------------------------------------------------------

  lemma {:induction false} PlainText(s: string)
    requires IsPlain(s)
    ensures Escape(Ascii(s)) == Ascii(s)
  {
    if s != [] {
      PlainText(s[1..]);
      var t := Ascii(s);
      assert t[1..] == Ascii(s[1..]);
      assert EscapeByte(t[0]) == [t[0]];
      hide EscapeByte, Ascii;
      assert [t[0]] + t[1..] == t;
    }
  }

  lemma NameText(name: string)
    requires IsPlain(name)
    ensures PrintString(Ascii(name)) == Ascii("\"" + name + "\"")
  {
    PlainText(name);
    hide Escape;
  }

  lemma FieldText(name: string, j: Json)
    requires IsPlain(name)
    ensures PrintField(Field(Ascii(name), j)) == Ascii("\"" + name + "\":") + Print(j)
  {
    NameText(name);
    var quoted := "\"" + name + "\"";
    AsciiAppend(quoted, ":");
    assert "\"" + name + "\":" == quoted + ":";
    hide Print, PrintString, Ascii;
    assert Ascii(":") == [COLON];
  }

  /** An object with one member. */
  lemma ObjectText(name: string, j: Json)
    requires IsPlain(name)
    ensures Print(Obj([Field(Ascii(name), j)])) == Ascii("{\"" + name + "\":") + Print(j) + Ascii("}")
  {
    var head := "\"" + name + "\":";
    FieldText(name, j);
    OneMember(Field(Ascii(name), j));
    AsciiAppend("{", head);
    assert "{" + head == "{\"" + name + "\":";
    Braces();
    hide Print, PrintField, Ascii;
    assert [OPEN_BRACE] + (Ascii(head) + Print(j)) == ([OPEN_BRACE] + Ascii(head)) + Print(j);
  }

  lemma OneMember(f: Field)
    ensures Print(Obj([f])) == [OPEN_BRACE] + PrintField(f) + [CLOSE_BRACE]
  {
    hide PrintField;
  }

  lemma Braces()
    ensures Ascii("{") == [OPEN_BRACE] && Ascii("}") == [CLOSE_BRACE] && Ascii(",") == [COMMA]
    ensures Ascii("[") == [OPEN_BRACKET] && Ascii("]") == [CLOSE_BRACKET]
  {
  }

  /** An object whose one member is an object with one member: head, value, and two braces. */
  lemma NestedText(outer: string, inner: string, j: Json, head: string)
    requires IsPlain(outer) && IsPlain(inner) && head == "{\"" + outer + "\":{\"" + inner + "\":"
    ensures IsAsciiText(head)
    ensures Print(Obj([Field(Ascii(outer), Obj([Field(Ascii(inner), j)]))])) == Ascii(head) + Print(j) + Ascii("}}")
  {
    var a, b := "{\"" + outer + "\":", "{\"" + inner + "\":";
    ObjectText(inner, j);
    ObjectText(outer, Obj([Field(Ascii(inner), j)]));
    AsciiAppend(a, b);
    AsciiAppend("}", "}");
    assert a + b == head && "}" + "}" == "}}";
    hide Print, Ascii;
    Regroup5(Ascii(a), Ascii(b), Print(j), Ascii("}"), Ascii("}"));
  }

  lemma Regroup5(a: Bytes, b: Bytes, c: Bytes, d: Bytes, e: Bytes)
    ensures a + (b + c + d) + e == (a + b) + c + (d + e)
  {
  }

  // ---------------------------------------------------------------------------------------------------------------
  // The messages
  // ---------------------------------------------------------------------------------------------------------------

  /** What a text is: the printed form of a message, and read as that message. */
  ghost predicate IsTextOf(text: Bytes, m: Message) {
    Encode(m) == text && Decode(text) == Some(m)
  }

  lemma ReadBack(m: Message)
    ensures IsTextOf(Print(Obj([Field(Tag(VerbOfMessage(m)), BodyJson(m))])), m)
  {
    DecodeEncode(m);
    hide Decode, Print, Tag, BodyJson;
  }

  /** A message whose body is an object with one member. */
  lemma OneMemberText(m: Message, outer: string, inner: string, j: Json, head: string, value: Bytes)
    requires IsPlain(outer) && IsPlain(inner) && head == "{\"" + outer + "\":{\"" + inner + "\":"
    requires Tag(VerbOfMessage(m)) == Ascii(outer) && BodyJson(m) == Obj([Field(Ascii(inner), j)]) && Print(j) == value
    ensures IsAsciiText(head) && IsTextOf(Ascii(head) + value + Ascii("}}"), m)
  {
    hide IsTextOf, Print, Ascii, Tag, BodyJson;
    NestedText(outer, inner, j, head);
    ReadBack(m);
  }

  lemma Values()
    ensures forall n: int :: Print(Num(n)) == PrintInt(n)
    ensures forall t: Text :: Print(Str(t)) == PrintString(t)
    ensures Print(Bool(true)) == Ascii("true") && Print(Bool(false)) == Ascii("false") && Print(Null) == Ascii("null")
  {
  }

  lemma StartedNames()
    ensures "{\"" + "started" + "\":{\"" + "pid" + "\":" == "{\"started\":{\"pid\":"
    ensures Tag(StartedVerb) == Ascii("started") && IsPlain("started") && IsPlain("pid")
  {
  }

  lemma StartedText(pid: u32)
    ensures IsTextOf(Ascii("{\"started\":{\"pid\":") + PrintInt(pid) + Ascii("}}"), Started(pid))
  {
    StartedNames();
    assert BodyJson(Started(pid)) == Obj([Field(Ascii("pid"), Num(pid))]);
    Values();
    hide IsTextOf, Print, PrintInt, PrintString, Tag, Ascii, IsPlain, BodyJson;
    OneMemberText(Started(pid), "started", "pid", Num(pid), "{\"started\":{\"pid\":", PrintInt(pid));
  }

  lemma KillNames()
    ensures "{\"" + "kill" + "\":{\"" + "signal" + "\":" == "{\"kill\":{\"signal\":"
    ensures Tag(KillVerb) == Ascii("kill") && IsPlain("kill") && IsPlain("signal")
  {
  }

  lemma KillText(signal: i32)
    ensures IsTextOf(Ascii("{\"kill\":{\"signal\":") + PrintInt(signal) + Ascii("}}"), Kill(signal))
  {
    KillNames();
    assert BodyJson(Kill(signal)) == Obj([Field(Ascii("signal"), Num(signal))]);
    Values();
    hide IsTextOf, Print, PrintInt, PrintString, Tag, Ascii, IsPlain, BodyJson;
    OneMemberText(Kill(signal), "kill", "signal", Num(signal), "{\"kill\":{\"signal\":", PrintInt(signal));
  }

  lemma ExitedNames()
    ensures "{\"" + "exited" + "\":{\"" + "status" + "\":" == "{\"exited\":{\"status\":"
    ensures Tag(ExitedVerb) == Ascii("exited") && IsPlain("exited") && IsPlain("status")
  {
  }

  lemma ExitedText(status: i32)
    ensures IsTextOf(Ascii("{\"exited\":{\"status\":") + PrintInt(status) + Ascii("}}"), Exited(status))
  {
    ExitedNames();
    assert BodyJson(Exited(status)) == Obj([Field(Ascii("status"), Num(status))]);
    Values();
    hide IsTextOf, Print, PrintInt, PrintString, Tag, Ascii, IsPlain, BodyJson;
    OneMemberText(Exited(status), "exited", "status", Num(status), "{\"exited\":{\"status\":", PrintInt(status));
  }

  lemma ErrorNames()
    ensures "{\"" + "error" + "\":{\"" + "message" + "\":" == "{\"error\":{\"message\":"
    ensures Tag(ErrorVerb) == Ascii("error") && IsPlain("error") && IsPlain("message")
  {
  }

  lemma ErrorText(message: Text)
    ensures IsTextOf(Ascii("{\"error\":{\"message\":") + PrintString(message) + Ascii("}}"), Error(message))
  {
    ErrorNames();
    assert BodyJson(Error(message)) == Obj([Field(Ascii("message"), Str(message))]);
    Values();
    hide IsTextOf, Print, PrintInt, PrintString, Tag, Ascii, IsPlain, BodyJson;
    OneMemberText(Error(message), "error", "message", Str(message), "{\"error\":{\"message\":", PrintString(message));
  }

  // ---------------------------------------------------------------------------------------------------------------
  // The messages on the streams
  // ---------------------------------------------------------------------------------------------------------------

  /** Numbers with commas in between. */
  function Numbers(bytes: Bytes): Bytes {
    if bytes == [] then []
    else if |bytes| == 1 then PrintNat(bytes[0])
    else PrintNat(bytes[0]) + Ascii(",") + Numbers(bytes[1..])
  }

  /** A payload: a string if it is ASCII, otherwise an array of numbers. */
  function PayloadText(data: Bytes): Bytes {
    if forall b <- data :: b < 0x80 then PrintString(data) else Ascii("[") + Numbers(data) + Ascii("]")
  }

  lemma {:induction false} NumbersText(bytes: Bytes)
    ensures PrintElems(NumbersJson(bytes)) == Numbers(bytes)
  {
    if bytes != [] {
      NumbersText(bytes[1..]);
      Values();
      Braces();
      var elems := NumbersJson(bytes);
      assert elems == [Num(bytes[0])] + NumbersJson(bytes[1..]);
      SameLength(bytes);
      SameLength(bytes[1..]);
      assert elems[1..] == NumbersJson(bytes[1..]);
      hide PrintNat, Ascii;
    }
  }

  lemma {:induction false} SameLength(bytes: Bytes)
    ensures |NumbersJson(bytes)| == |bytes|
  {
    if bytes != [] {
      SameLength(bytes[1..]);
    }
  }

  lemma PayloadIsText(data: Bytes)
    ensures Print(DataJson(data)) == PayloadText(data)
  {
    NumbersText(data);
    Braces();
    hide Ascii, Numbers, PrintElems, NumbersJson, PrintString;
  }

  lemma StdinNames()
    ensures "{\"" + "stdin" + "\":{\"" + "data" + "\":" == "{\"stdin\":{\"data\":"
    ensures "{\"" + "stdin" + "\":{\"" + "closed" + "\":" == "{\"stdin\":{\"closed\":"
    ensures Tag(StdinVerb) == Ascii("stdin") && IsPlain("stdin") && IsPlain("data") && IsPlain("closed")
  {
  }

  lemma StdinText(data: Bytes)
    ensures IsTextOf(Ascii("{\"stdin\":{\"data\":") + PayloadText(data) + Ascii("}}"), Stdin(Data(data)))
  {
    StdinNames();
    assert BodyJson(Stdin(Data(data))) == Obj([Field(Ascii("data"), DataJson(data))]);
    hide IsTextOf, Print, PayloadText, Tag, Ascii, IsPlain, BodyJson, DataJson;
    PayloadIsText(data);
    OneMemberText(Stdin(Data(data)), "stdin", "data", DataJson(data), "{\"stdin\":{\"data\":", PayloadText(data));
  }

  lemma StdinClosedText()
    ensures IsTextOf(Ascii("{\"stdin\":{\"closed\":") + Ascii("true") + Ascii("}}"), Stdin(Closed))
  {
    StdinNames();
    assert BodyJson(Stdin(Closed)) == Obj([Field(Ascii("closed"), Bool(true))]);
    Values();
    hide IsTextOf, Print, Tag, Ascii, IsPlain, BodyJson;
    OneMemberText(Stdin(Closed), "stdin", "closed", Bool(true), "{\"stdin\":{\"closed\":", Ascii("true"));
  }

  lemma StdoutNames()
    ensures "{\"" + "stdout" + "\":{\"" + "data" + "\":" == "{\"stdout\":{\"data\":"
    ensures "{\"" + "stdout" + "\":{\"" + "closed" + "\":" == "{\"stdout\":{\"closed\":"
    ensures Tag(StdoutVerb) == Ascii("stdout") && IsPlain("stdout") && IsPlain("data") && IsPlain("closed")
  {
  }

  lemma StdoutText(data: Bytes)
    ensures IsTextOf(Ascii("{\"stdout\":{\"data\":") + PayloadText(data) + Ascii("}}"), Stdout(Data(data)))
  {
    StdoutNames();
    assert BodyJson(Stdout(Data(data))) == Obj([Field(Ascii("data"), DataJson(data))]);
    hide IsTextOf, Print, PayloadText, Tag, Ascii, IsPlain, BodyJson, DataJson;
    PayloadIsText(data);
    OneMemberText(Stdout(Data(data)), "stdout", "data", DataJson(data), "{\"stdout\":{\"data\":", PayloadText(data));
  }

  lemma StdoutClosedText()
    ensures IsTextOf(Ascii("{\"stdout\":{\"closed\":") + Ascii("true") + Ascii("}}"), Stdout(Closed))
  {
    StdoutNames();
    assert BodyJson(Stdout(Closed)) == Obj([Field(Ascii("closed"), Bool(true))]);
    Values();
    hide IsTextOf, Print, Tag, Ascii, IsPlain, BodyJson;
    OneMemberText(Stdout(Closed), "stdout", "closed", Bool(true), "{\"stdout\":{\"closed\":", Ascii("true"));
  }

  lemma StderrNames()
    ensures "{\"" + "stderr" + "\":{\"" + "data" + "\":" == "{\"stderr\":{\"data\":"
    ensures "{\"" + "stderr" + "\":{\"" + "closed" + "\":" == "{\"stderr\":{\"closed\":"
    ensures Tag(StderrVerb) == Ascii("stderr") && IsPlain("stderr") && IsPlain("data") && IsPlain("closed")
  {
  }

  lemma StderrText(data: Bytes)
    ensures IsTextOf(Ascii("{\"stderr\":{\"data\":") + PayloadText(data) + Ascii("}}"), Stderr(Data(data)))
  {
    StderrNames();
    assert BodyJson(Stderr(Data(data))) == Obj([Field(Ascii("data"), DataJson(data))]);
    hide IsTextOf, Print, PayloadText, Tag, Ascii, IsPlain, BodyJson, DataJson;
    PayloadIsText(data);
    OneMemberText(Stderr(Data(data)), "stderr", "data", DataJson(data), "{\"stderr\":{\"data\":", PayloadText(data));
  }

  lemma StderrClosedText()
    ensures IsTextOf(Ascii("{\"stderr\":{\"closed\":") + Ascii("true") + Ascii("}}"), Stderr(Closed))
  {
    StderrNames();
    assert BodyJson(Stderr(Closed)) == Obj([Field(Ascii("closed"), Bool(true))]);
    Values();
    hide IsTextOf, Print, Tag, Ascii, IsPlain, BodyJson;
    OneMemberText(Stderr(Closed), "stderr", "closed", Bool(true), "{\"stderr\":{\"closed\":", Ascii("true"));
  }

  lemma NoOpText()
    ensures IsTextOf(Ascii("{\"private-noop\":") + Ascii("null") + Ascii("}"), NoOp)
  {
    NoOpNames();
    Values();
    hide IsTextOf, Print, Tag, Ascii, IsPlain;
    ObjectText("private-noop", Null);
    ReadBack(NoOp);
  }

  lemma NoOpNames()
    ensures "{\"" + "private-noop" + "\":" == "{\"private-noop\":"
    ensures Tag(NoOpVerb) == Ascii("private-noop") && IsPlain("private-noop")
  {
  }

  // ---------------------------------------------------------------------------------------------------------------
  // The message that starts a process
  // ---------------------------------------------------------------------------------------------------------------

  /** Strings with commas in between. */
  function Strings(texts: seq<Text>): Bytes {
    if texts == [] then []
    else if |texts| == 1 then PrintString(texts[0])
    else PrintString(texts[0]) + Ascii(",") + Strings(texts[1..])
  }

  /** A member behind another one, if it is there. */
  function Member(head: string, value: Option<Bytes>): Bytes
    requires IsAsciiText(head)
  {
    if value.None? then [] else Ascii(head) + value.value
  }

  function MaybeString(t: Option<Text>): Option<Bytes> {
    if t.None? then None else Some(PrintString(t.value))
  }

  function ArgsValue(args: seq<Text>): Option<Bytes> {
    if args == [] then None else Some(Ascii("[") + Strings(args) + Ascii("]"))
  }

  function BoolValue(b: Option<bool>): Option<Bytes> {
    if b.None? then None else Some(if b.value then Ascii("true") else Ascii("false"))
  }

  lemma ExecHeads()
    ensures IsAsciiText(",\"args\":") && IsAsciiText(",\"pwd\":") && IsAsciiText(",\"user\":")
    ensures IsAsciiText(",\"line_buffered_io\":")
  {
  }

  lemma {:induction false} StringsText(texts: seq<Text>)
    ensures PrintElems(TextsJson(texts)) == Strings(texts)
    ensures |TextsJson(texts)| == |texts|
  {
    if texts != [] {
      StringsText(texts[1..]);
      Values();
      Braces();
      var elems := TextsJson(texts);
      assert elems == [Str(texts[0])] + TextsJson(texts[1..]);
      assert elems[1..] == TextsJson(texts[1..]);
      hide PrintString, Ascii;
    }
  }

  /** Members behind another one. */
  function Behind(fields: seq<Field>): Bytes {
    if fields == [] then [] else [COMMA] + PrintFields(fields)
  }

  lemma FirstAndBehind(f: Field, fields: seq<Field>)
    ensures PrintFields([f] + fields) == PrintField(f) + Behind(fields)
  {
    assert ([f] + fields)[1..] == fields;
    hide PrintField;
    if fields == [] {
      assert PrintField(f) + [] == PrintField(f);
    } else {
      assert PrintField(f) + [COMMA] + PrintFields(fields) == PrintField(f) + ([COMMA] + PrintFields(fields));
    }
  }

  lemma {:induction false} BehindAppend(a: seq<Field>, b: seq<Field>)
    ensures Behind(a + b) == Behind(a) + Behind(b)
  {
    hide PrintFields, PrintField;
    if a == [] {
      assert a + b == b;
    } else {
      var f, rest := a[0], a[1..];
      BehindAppend(rest, b);
      FirstAndBehind(f, rest);
      FirstAndBehind(f, rest + b);
      assert a == [f] + rest && a + b == [f] + (rest + b);
      hide Behind;
      BehindFirst(f, rest);
      BehindFirst(f, rest + b);
      Regroup(PrintField(f), Behind(rest), Behind(b));
    }
  }

  lemma BehindFirst(f: Field, rest: seq<Field>)
    ensures Behind([f] + rest) == [COMMA] + (PrintField(f) + Behind(rest))
  {
    FirstAndBehind(f, rest);
    hide PrintFields, PrintField;
  }

  lemma Regroup(a: Bytes, b: Bytes, c: Bytes)
    ensures [COMMA] + (a + (b + c)) == ([COMMA] + (a + b)) + c
  {
  }

  lemma QuotedIsAscii(name: string)
    requires IsPlain(name)
    ensures IsAsciiText(name) && IsAsciiText("\"" + name + "\":")
  {
  }

  lemma HeadText(name: string, head: string)
    requires IsPlain(name) && head == ",\"" + name + "\":"
    ensures IsAsciiText("\"" + name + "\":")
    ensures IsAsciiText(head) && Ascii(head) == [COMMA] + Ascii("\"" + name + "\":")
  {
    hide Ascii, IsPlain;
    QuotedIsAscii(name);
    var quoted := "\"" + name + "\":";
    assert "," + quoted == head;
    AsciiAppend(",", quoted);
    Braces();
  }

  lemma OneBehind(f: Field)
    ensures Behind([f]) == [COMMA] + PrintField(f)
  {
    assert [f] + [] == [f];
    BehindFirst(f, []);
    assert PrintField(f) + [] == PrintField(f);
    hide PrintFields, PrintField;
  }

  lemma CommaFirst(a: Bytes, b: Bytes)
    ensures [COMMA] + (a + b) == ([COMMA] + a) + b
  {
  }

  /** One optional member. */
  lemma OptionalText(name: string, value: Option<Json>, head: string)
    requires IsPlain(name) && head == ",\"" + name + "\":"
    ensures IsAsciiText(head)
    ensures Behind(OptionalField(Ascii(name), value))
         == Member(head, if value.None? then None else Some(Print(value.value)))
  {
    QuotedIsAscii(name);
    hide Print, PrintField, Ascii, PrintFields, IsPlain;
    HeadText(name, head);
    if value.Some? {
      hide Behind;
      FieldText(name, value.value);
      OneBehind(Field(Ascii(name), value.value));
      CommaFirst(Ascii("\"" + name + "\":"), Print(value.value));
    }
  }

  lemma ExecNames()
    ensures ",\"" + "args" + "\":" == ",\"args\":" && ",\"" + "pwd" + "\":" == ",\"pwd\":"
    ensures ",\"" + "user" + "\":" == ",\"user\":"
    ensures ",\"" + "line_buffered_io" + "\":" == ",\"line_buffered_io\":"
    ensures IsPlain("args") && IsPlain("pwd") && IsPlain("user") && IsPlain("line_buffered_io")
    ensures ARGS == Ascii("args") && PWD == Ascii("pwd") && USER == Ascii("user")
    ensures LINE_BUFFERED_IO == Ascii("line_buffered_io")
  {
  }

  /** The optional members of `exec`, as text. */
  function ExecMembers(e: Exec): Bytes {
    ExecHeads();
    Member(",\"args\":", ArgsValue(e.args))
      + (Member(",\"pwd\":", MaybeString(e.pwd))
      + (Member(",\"user\":", MaybeString(e.user))
      + Member(",\"line_buffered_io\":", BoolValue(e.lineBufferedIo))))
  }

  function ArgsJson(args: seq<Text>): Option<Json> {
    if args == [] then None else Some(Arr(TextsJson(args)))
  }

  function BoolJson(b: Option<bool>): Option<Json> {
    if b.None? then None else Some(Bool(b.value))
  }

  lemma OptionalValues(e: Exec)
    ensures (if ArgsJson(e.args).None? then None else Some(Print(ArgsJson(e.args).value))) == ArgsValue(e.args)
    ensures forall t :: (if TextJson(t).None? then None else Some(Print(TextJson(t).value))) == MaybeString(t)
    ensures (if BoolJson(e.lineBufferedIo).None? then None else Some(Print(BoolJson(e.lineBufferedIo).value)))
         == BoolValue(e.lineBufferedIo)
  {
    Values();
    Braces();
    StringsText(e.args);
    hide PrintString, Ascii, Strings, TextsJson, PrintElems;
  }

  lemma ExecMembersText(e: Exec)
    ensures Behind(OptionalField(ARGS, ArgsJson(e.args)) + (OptionalField(PWD, TextJson(e.pwd))
                 + (OptionalField(USER, TextJson(e.user)) + OptionalField(LINE_BUFFERED_IO, BoolJson(e.lineBufferedIo)))))
         == ExecMembers(e)
  {
    ExecNames();
    hide Behind, OptionalField, Print, Ascii, IsPlain, IsAsciiText, Member, ArgsValue, BoolValue, MaybeString, ArgsJson,
      BoolJson, TextJson;
    OptionalValues(e);
    OptionalText("args", ArgsJson(e.args), ",\"args\":");
    OptionalText("pwd", TextJson(e.pwd), ",\"pwd\":");
    OptionalText("user", TextJson(e.user), ",\"user\":");
    OptionalText("line_buffered_io", BoolJson(e.lineBufferedIo), ",\"line_buffered_io\":");
    var a, p := OptionalField(ARGS, ArgsJson(e.args)), OptionalField(PWD, TextJson(e.pwd));
    var u, l := OptionalField(USER, TextJson(e.user)), OptionalField(LINE_BUFFERED_IO, BoolJson(e.lineBufferedIo));
    BehindAppend(a, p + (u + l));
    BehindAppend(p, u + l);
    BehindAppend(u, l);
  }

  lemma ExecNamesToo()
    ensures "{\"" + "exec" + "\":" == "{\"exec\":" && "\"" + "prog" + "\":" == "\"prog\":"
    ensures IsPlain("exec") && IsPlain("prog") && PROG == Ascii("prog") && Tag(ExecVerb) == Ascii("exec")
    ensures Ascii("{\"exec\":") + Ascii("{") + Ascii("\"prog\":") == Ascii("{\"exec\":{\"prog\":")
    ensures Ascii("}") + Ascii("}") == Ascii("}}")
  {
  }

  lemma ExecBodyText(e: Exec)
    ensures Print(ExecJson(e))
         == [OPEN_BRACE] + (Ascii("\"prog\":") + PrintString(e.prog) + ExecMembers(e)) + [CLOSE_BRACE]
  {
    ExecNamesToo();
    ExecFields(e);
    Values();
    hide PrintString, PrintField, Ascii, IsPlain, ExecMembers, Behind, PrintFields, OptionalField, Print, ExecJson;
    ExecMembersText(e);
    FieldText("prog", Str(e.prog));
    FirstAndBehind(Field(PROG, Str(e.prog)), Optionals(e));
    FieldsText([Field(PROG, Str(e.prog))] + Optionals(e));
  }

  function Optionals(e: Exec): seq<Field> {
    OptionalField(ARGS, ArgsJson(e.args)) + (OptionalField(PWD, TextJson(e.pwd))
      + (OptionalField(USER, TextJson(e.user)) + OptionalField(LINE_BUFFERED_IO, BoolJson(e.lineBufferedIo))))
  }

  lemma ExecFields(e: Exec)
    ensures ExecJson(e) == Obj([Field(PROG, Str(e.prog))] + Optionals(e))
  {
    hide OptionalField, TextJson, TextsJson;
  }

  lemma FieldsText(fields: seq<Field>)
    ensures Print(Obj(fields)) == [OPEN_BRACE] + PrintFields(fields) + [CLOSE_BRACE]
  {
    hide PrintFields;
  }

  /** The text of `exec`: optional members that are absent, and an empty list of arguments, are left out. */
  lemma ExecText(e: Exec)
    ensures IsTextOf(Ascii("{\"exec\":{\"prog\":") + (PrintString(e.prog) + ExecMembers(e)) + Ascii("}}"), ExecMessage(e))
  {
    hide IsTextOf, Print, Tag, Ascii, IsPlain, PrintString, ExecMembers, ExecJson, BodyJson;
    ExecNamesToo();
    Braces();
    BodyOfExec(e);
    ExecBodyText(e);
    ObjectText("exec", ExecJson(e));
    ReadBack(ExecMessage(e));
    Nest(Ascii("{\"exec\":"), Ascii("{"), Ascii("\"prog\":"), PrintString(e.prog), ExecMembers(e), Ascii("}"), Ascii("}"));
  }

  lemma BodyOfExec(e: Exec)
    ensures BodyJson(ExecMessage(e)) == ExecJson(e)
    ensures VerbOfMessage(ExecMessage(e)) == ExecVerb
  {
    hide ExecJson;
  }

  lemma Nest(a: Bytes, b: Bytes, c: Bytes, d: Bytes, e: Bytes, f: Bytes, g: Bytes)
    ensures a + (b + (c + d + e) + f) + g == (a + b + c) + (d + e) + (f + g)
  {
  }
}
