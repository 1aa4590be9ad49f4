/** The messages of the exec protocol: their JSON shape as the serde attributes fix it, the dual encoding of byte
    payloads, and the `FromMessage` filters by which a receiver selects what it wants. */
module Messages {
  import opened Basics
  import opened Json

  type u32 = n: int | 0 <= n < 0x1_0000_0000
  type i32 = n: int | -0x8000_0000 <= n < 0x8000_0000

  datatype Exec = Exec(
    prog: Text, args: seq<Text>, pwd: Option<Text>, user: Option<Text>, lineBufferedIo: Option<bool>)

  datatype Stdio = Data(bytes: Bytes) | Closed

  datatype Message =
    | ExecMessage(exec: Exec)
    | Started(pid: u32)
    | Stdin(stdin: Stdio)
    | Stdout(stdout: Stdio)
    | Stderr(stderr: Stdio)
    | Kill(signal: i32)
    | Exited(status: i32)
    | Error(message: Text)
    | NoOp

  // ---------------------------------------------------------------------------------------------------------------
  // Names
  // ---------------------------------------------------------------------------------------------------------------

  function Ascii(s: string): (r: Text)
    requires forall i | 0 <= i < |s| :: s[i] as int < 0x80
    ensures |r| == |s| && forall i | 0 <= i < |s| :: r[i] == s[i] as int
  {
    var r: Bytes := seq(|s|, i requires 0 <= i < |s| => s[i] as int);
    AsciiIsUtf8(r);
    r
  }

  const EXEC: Text := Ascii("exec")
  const STARTED: Text := Ascii("started")
  const STDIN: Text := Ascii("stdin")
  const STDOUT: Text := Ascii("stdout")
  const STDERR: Text := Ascii("stderr")
  const KILL: Text := Ascii("kill")
  const EXITED: Text := Ascii("exited")
  const ERROR: Text := Ascii("error")
  const NOOP: Text := Ascii("private-noop")

  /** The variants of `Message`, whose renamed tags are the only member of a message's object. */
  datatype Verb =
    ExecVerb | StartedVerb | StdinVerb | StdoutVerb | StderrVerb | KillVerb | ExitedVerb | ErrorVerb | NoOpVerb

  function Tag(v: Verb): Text {
    match v
    case ExecVerb => EXEC
    case StartedVerb => STARTED
    case StdinVerb => STDIN
    case StdoutVerb => STDOUT
    case StderrVerb => STDERR
    case KillVerb => KILL
    case ExitedVerb => EXITED
    case ErrorVerb => ERROR
    case NoOpVerb => NOOP
  }

  function VerbOf(tag: Text): Option<Verb> {
    if tag == EXEC then Some(ExecVerb)
    else if tag == STARTED then Some(StartedVerb)
    else if tag == STDIN then Some(StdinVerb)
    else if tag == STDOUT then Some(StdoutVerb)
    else if tag == STDERR then Some(StderrVerb)
    else if tag == KILL then Some(KillVerb)
    else if tag == EXITED then Some(ExitedVerb)
    else if tag == ERROR then Some(ErrorVerb)
    else if tag == NOOP then Some(NoOpVerb)
    else None
  }

  const PROG: Text := Ascii("prog")
  const ARGS: Text := Ascii("args")
  const PWD: Text := Ascii("pwd")
  const USER: Text := Ascii("user")
  const LINE_BUFFERED_IO: Text := Ascii("line_buffered_io")
  const PID: Text := Ascii("pid")
  const SIGNAL: Text := Ascii("signal")
  const STATUS: Text := Ascii("status")
  const MESSAGE: Text := Ascii("message")
  const DATA: Text := Ascii("data")
  const CLOSED: Text := Ascii("closed")

  /** The tags are distinct. */
  lemma VerbOfTag(v: Verb)
    ensures VerbOf(Tag(v)) == Some(v)
  {
    assert EXEC[0] != KILL[0];
    assert STDIN[0] != ERROR[0];
    assert STDOUT[3] != STDERR[3] && STDOUT[0] != EXITED[0] && STDERR[0] != EXITED[0];
  }

  lemma ExecNamesDiffer()
    ensures PROG != ARGS && PROG != PWD && PROG != USER && PROG != LINE_BUFFERED_IO
    ensures ARGS != PWD && ARGS != USER && ARGS != LINE_BUFFERED_IO
    ensures PWD != USER && PWD != LINE_BUFFERED_IO && USER != LINE_BUFFERED_IO
  {
    assert PROG[0] != ARGS[0] && PROG[0] != USER[0] && ARGS[0] != USER[0];
  }

  // ---------------------------------------------------------------------------------------------------------------
  // Message to JSON (the derived `Serialize`)
  // ---------------------------------------------------------------------------------------------------------------

  function TextsJson(texts: seq<Text>): seq<Json> {
    if texts == [] then [] else [Str(texts[0])] + TextsJson(texts[1..])
  }

  function NumbersJson(bytes: Bytes): seq<Json> {
    if bytes == [] then [] else [Num(bytes[0])] + NumbersJson(bytes[1..])
  }

  /** ASCII payloads are strings, all others arrays of numbers. */
  function DataJson(data: Bytes): Json {
    if IsAscii(data) then AsciiIsUtf8(data); Str(data) else Arr(NumbersJson(data))
  }

  function OptionalField(name: Text, value: Option<Json>): seq<Field> {
    match value
    case None => []
    case Some(j) => [Field(name, j)]
  }

  function TextJson(t: Option<Text>): Option<Json> {
    match t
    case None => None
    case Some(v) => Some(Str(v))
  }

  function ExecJson(e: Exec): Json {
    Obj([Field(PROG, Str(e.prog))]
      + (OptionalField(ARGS, if e.args == [] then None else Some(Arr(TextsJson(e.args))))
      + (OptionalField(PWD, TextJson(e.pwd))
      + (OptionalField(USER, TextJson(e.user))
      + OptionalField(LINE_BUFFERED_IO, if e.lineBufferedIo.None? then None else Some(Bool(e.lineBufferedIo.value)))))))
  }

  function StdioJson(s: Stdio): Json {
    match s
    case Data(bytes) => Obj([Field(DATA, DataJson(bytes))])
    case Closed => Obj([Field(CLOSED, Bool(true))])
  }

  function VerbOfMessage(m: Message): Verb {
    match m
    case ExecMessage(_) => ExecVerb
    case Started(_) => StartedVerb
    case Stdin(_) => StdinVerb
    case Stdout(_) => StdoutVerb
    case Stderr(_) => StderrVerb
    case Kill(_) => KillVerb
    case Exited(_) => ExitedVerb
    case Error(_) => ErrorVerb
    case NoOp => NoOpVerb
  }

  function BodyJson(m: Message): Json {
    match m
    case ExecMessage(e) => ExecJson(e)
    case Started(pid) => Obj([Field(PID, Num(pid))])
    case Stdin(s) => StdioJson(s)
    case Stdout(s) => StdioJson(s)
    case Stderr(s) => StdioJson(s)
    case Kill(signal) => Obj([Field(SIGNAL, Num(signal))])
    case Exited(status) => Obj([Field(STATUS, Num(status))])
    case Error(message) => Obj([Field(MESSAGE, Str(message))])
    case NoOp => Null
  }

  function ToJson(m: Message): Json {
    Obj([Field(Tag(VerbOfMessage(m)), BodyJson(m))])
  }

  // ---------------------------------------------------------------------------------------------------------------
  // JSON to message (the derived `Deserialize`): members in any order, unknown ones ignored, known ones at most once
  // ---------------------------------------------------------------------------------------------------------------

  datatype Lookup = Absent | Present(value: Json) | Duplicate

  function Find(fields: seq<Field>, name: Text): Lookup {
    if fields == [] then Absent
    else if fields[0].name != name then Find(fields[1..], name)
    else if Find(fields[1..], name).Absent? then Present(fields[0].value)
    else Duplicate
  }

  function AsText(j: Json): Option<Text> {
    if j.Str? then Some(j.text) else None
  }

  function AsTexts(elems: seq<Json>): Option<seq<Text>> {
    if elems == [] then Some([])
    else
      match (AsText(elems[0]), AsTexts(elems[1..]))
      case (Some(t), Some(ts)) => Some([t] + ts)
      case _ => None
  }

  function AsBytes(elems: seq<Json>): Option<Bytes> {
    if elems == [] then Some([])
    else if !elems[0].Num? || !(0 <= elems[0].n < 0x100) then None
    else
      match AsBytes(elems[1..])
      case None => None
      case Some(bytes) => Some([elems[0].n] + bytes)
  }

  function DataFrom(j: Json): Option<Bytes> {
    match j
    case Str(text) => Some(text)
    case Arr(elems) => AsBytes(elems)
    case _ => None
  }

  /** An `Option<String>` member: missing and `null` are both `None`; the outer option is the parse result. */
  function OptionalText(l: Lookup): Option<Option<Text>> {
    match l
    case Absent => Some(None)
    case Present(Null) => Some(None)
    case Present(Str(t)) => Some(Some(t))
    case _ => None
  }

  function OptionalBool(l: Lookup): Option<Option<bool>> {
    match l
    case Absent => Some(None)
    case Present(Null) => Some(None)
    case Present(Bool(b)) => Some(Some(b))
    case _ => None
  }

  function DefaultedTexts(l: Lookup): Option<seq<Text>> {
    match l
    case Absent => Some([])
    case Present(Arr(elems)) => AsTexts(elems)
    case _ => None
  }

  function RequiredText(l: Lookup): Option<Text> {
    match l
    case Present(Str(t)) => Some(t)
    case _ => None
  }

  function RequiredInt(j: Json, name: Text, lo: int, hi: int): (r: Option<int>)
    ensures r.Some? ==> lo <= r.value < hi
  {
    if !j.Obj? then None
    else
      match Find(j.fields, name)
      case Present(Num(n)) => if lo <= n < hi then Some(n) else None
      case _ => None
  }

  function ExecFrom(j: Json): Option<Exec> {
    if !j.Obj? then None
    else
      var prog := RequiredText(Find(j.fields, PROG));
      var args := DefaultedTexts(Find(j.fields, ARGS));
      var pwd := OptionalText(Find(j.fields, PWD));
      var user := OptionalText(Find(j.fields, USER));
      var line := OptionalBool(Find(j.fields, LINE_BUFFERED_IO));
      if prog.Some? && args.Some? && pwd.Some? && user.Some? && line.Some?
      then Some(Exec(prog.value, args.value, pwd.value, user.value, line.value))
      else None
  }

  function StdioFrom(j: Json): Option<Stdio> {
    if !j.Obj? || |j.fields| != 1 then None
    else if j.fields[0].name == DATA then
      match DataFrom(j.fields[0].value)
      case None => None
      case Some(bytes) => Some(Data(bytes))
    else if j.fields[0].name == CLOSED then
      if j.fields[0].value == Bool(true) then Some(Closed) else None
    else None
  }

  function FromBody(verb: Verb, v: Json): Option<Message> {
    match verb
    case ExecVerb => (match ExecFrom(v) case None => None case Some(e) => Some(ExecMessage(e)))
    case StartedVerb =>
      (match RequiredInt(v, PID, 0, 0x1_0000_0000) case None => None case Some(n) => Some(Started(n)))
    case StdinVerb => (match StdioFrom(v) case None => None case Some(s) => Some(Stdin(s)))
    case StdoutVerb => (match StdioFrom(v) case None => None case Some(s) => Some(Stdout(s)))
    case StderrVerb => (match StdioFrom(v) case None => None case Some(s) => Some(Stderr(s)))
    case KillVerb =>
      (match RequiredInt(v, SIGNAL, -0x8000_0000, 0x8000_0000) case None => None case Some(n) => Some(Kill(n)))
    case ExitedVerb =>
      (match RequiredInt(v, STATUS, -0x8000_0000, 0x8000_0000) case None => None case Some(n) => Some(Exited(n)))
    case ErrorVerb =>
      if !v.Obj? then None
      else (match RequiredText(Find(v.fields, MESSAGE)) case None => None case Some(t) => Some(Error(t)))
    case NoOpVerb => if v.Null? then Some(NoOp) else None
  }

  function FromJson(j: Json): Option<Message> {
    if !j.Obj? || |j.fields| != 1 then None
    else
      match VerbOf(j.fields[0].name)
      case None => None
      case Some(verb) => FromBody(verb, j.fields[0].value)
  }

  // ---------------------------------------------------------------------------------------------------------------
  // The codec
  // ---------------------------------------------------------------------------------------------------------------

  /** The body of a frame. */
  function Encode(m: Message): Bytes {
    Print(ToJson(m))
  }

  function Decode(frame: Bytes): Option<Message> {
    match Parse(frame)
    case None => None
    case Some(j) => FromJson(j)
  }

  lemma {:induction false} AsTextsJson(texts: seq<Text>)
    ensures AsTexts(TextsJson(texts)) == Some(texts)
  {
    if texts != [] {
      AsTextsJson(texts[1..]);
      assert [texts[0]] + texts[1..] == texts;
    }
  }

  lemma {:induction false} AsNumbersJson(bytes: Bytes)
    ensures AsBytes(NumbersJson(bytes)) == Some(bytes)
  {
    if bytes != [] {
      AsNumbersJson(bytes[1..]);
      assert [bytes[0]] + bytes[1..] == bytes;
    }
  }

  /** Both encodings of a payload are read back as the payload, whichever one the sender would have chosen. */
  lemma EitherDataEncoding(data: Bytes)
    ensures DataFrom(DataJson(data)) == Some(data)
    ensures DataFrom(Arr(NumbersJson(data))) == Some(data)
    ensures DataJson(data).Str? <==> IsAscii(data)
  {
    AsNumbersJson(data);
  }

  /** `visit_seq`: the byte array filled one element at a time. */
  method VisitSeq(elems: seq<Json>) returns (r: Option<Bytes>)
    ensures r == AsBytes(elems)
    ensures r.Some? ==> NumbersJson(r.value) == elems
  {
    var buf: Bytes := [];
    var i := 0;
    assert elems[0..] == elems && forall bytes: Bytes :: buf + bytes == bytes;
    while i < |elems|
      invariant 0 <= i <= |elems|
      invariant NumbersJson(buf) == elems[..i]
      invariant AsBytes(elems)
             == match AsBytes(elems[i..]) case None => None case Some(bytes) => Some(buf + bytes)
    {
      var e := elems[i];
      if !e.Num? || !(0 <= e.n < 0x100) {
        return None;
      }
      NumbersJsonAppend(buf, [e.n]);
      assert elems[i + 1..] == elems[i..][1..];
      assert forall bytes: Bytes :: buf + ([e.n] + bytes) == (buf + [e.n]) + bytes;
      assert elems[..i + 1] == elems[..i] + [e];
      buf := buf + [e.n];
      i := i + 1;
    }
    assert elems[i..] == [] && elems[..i] == elems;
    assert buf + [] == buf;
    r := Some(buf);
  }

  lemma {:induction false} NumbersJsonAppend(a: Bytes, b: Bytes)
    ensures NumbersJson(a + b) == NumbersJson(a) + NumbersJson(b)
  {
    if a == [] {
      assert a + b == b;
    } else {
      assert (a + b)[1..] == a[1..] + b;
      NumbersJsonAppend(a[1..], b);
    }
  }

  function Both(a: Lookup, b: Lookup): Lookup {
    if a.Absent? then b else if b.Absent? then a else Duplicate
  }

  lemma {:induction false} FindConcat(a: seq<Field>, b: seq<Field>, name: Text)
    ensures Find(a + b, name) == Both(Find(a, name), Find(b, name))
  {
    if a == [] {
      assert a + b == b;
    } else {
      assert (a + b)[1..] == a[1..] + b;
      FindConcat(a[1..], b, name);
    }
  }

  lemma SingleInt(name: Text, n: int, lo: int, hi: int)
    requires lo <= n < hi
    ensures RequiredInt(Obj([Field(name, Num(n))]), name, lo, hi) == Some(n)
  {
    assert Find([Field(name, Num(n))], name) == Present(Num(n));
  }

  lemma SingleText(name: Text, t: Text)
    ensures RequiredText(Find([Field(name, Str(t))], name)) == Some(t)
  {
  }

  lemma FindOptional(field: Text, value: Option<Json>, name: Text)
    ensures Find(OptionalField(field, value), name)
         == if field == name && value.Some? then Present(value.value) else Absent
  {
  }

  lemma FindInFive(a: seq<Field>, b: seq<Field>, c: seq<Field>, d: seq<Field>, e: seq<Field>, name: Text)
    ensures Find(a + (b + (c + (d + e))), name)
         == Both(Find(a, name), Both(Find(b, name), Both(Find(c, name), Both(Find(d, name), Find(e, name)))))
  {
    FindConcat(a, b + (c + (d + e)), name);
    FindConcat(b, c + (d + e), name);
    FindConcat(c, d + e, name);
    FindConcat(d, e, name);
  }

  lemma FindInExec(e: Exec, name: Text)
    ensures Find(ExecJson(e).fields, name)
         == Both(if name == PROG then Present(Str(e.prog)) else Absent,
            Both(if name == ARGS && e.args != [] then Present(Arr(TextsJson(e.args))) else Absent,
            Both(if name == PWD && e.pwd.Some? then Present(Str(e.pwd.value)) else Absent,
            Both(if name == USER && e.user.Some? then Present(Str(e.user.value)) else Absent,
                 if name == LINE_BUFFERED_IO && e.lineBufferedIo.Some? then Present(Bool(e.lineBufferedIo.value))
                 else Absent))))
  {
    hide Find;
    FindOptional(ARGS, if e.args == [] then None else Some(Arr(TextsJson(e.args))), name);
    FindOptional(PWD, TextJson(e.pwd), name);
    FindOptional(USER, TextJson(e.user), name);
    FindOptional(
      LINE_BUFFERED_IO, if e.lineBufferedIo.None? then None else Some(Bool(e.lineBufferedIo.value)), name);
    FindOptional(PROG, Some(Str(e.prog)), name);
    FindInFive(
      [Field(PROG, Str(e.prog))],
      OptionalField(ARGS, if e.args == [] then None else Some(Arr(TextsJson(e.args)))),
      OptionalField(PWD, TextJson(e.pwd)),
      OptionalField(USER, TextJson(e.user)),
      OptionalField(LINE_BUFFERED_IO, if e.lineBufferedIo.None? then None else Some(Bool(e.lineBufferedIo.value))),
      name);
  }

  /** Each member of `exec` is found again, or is absent as it was. */
  lemma ExecMembers(e: Exec)
    ensures var fields := ExecJson(e).fields;
            && Find(fields, PROG) == Present(Str(e.prog))
            && Find(fields, ARGS) == (if e.args == [] then Absent else Present(Arr(TextsJson(e.args))))
            && Find(fields, PWD) == (if e.pwd.None? then Absent else Present(Str(e.pwd.value)))
            && Find(fields, USER) == (if e.user.None? then Absent else Present(Str(e.user.value)))
            && Find(fields, LINE_BUFFERED_IO)
               == (if e.lineBufferedIo.None? then Absent else Present(Bool(e.lineBufferedIo.value)))
  {
    ExecNamesDiffer();
    hide Find, ExecJson, TextsJson;
    FindInExec(e, PROG);
    FindInExec(e, ARGS);
    FindInExec(e, PWD);
    FindInExec(e, USER);
    FindInExec(e, LINE_BUFFERED_IO);
  }

  lemma PresentText(t: Text)
    ensures RequiredText(Present(Str(t))) == Some(t)
  {
  }

  lemma MaybeText(t: Option<Text>)
    ensures OptionalText(if t.None? then Absent else Present(Str(t.value))) == Some(t)
  {
  }

  lemma MaybeBool(b: Option<bool>)
    ensures OptionalBool(if b.None? then Absent else Present(Bool(b.value))) == Some(b)
  {
  }

  lemma MaybeTexts(texts: seq<Text>)
    ensures DefaultedTexts(if texts == [] then Absent else Present(Arr(TextsJson(texts)))) == Some(texts)
  {
    AsTextsJson(texts);
    hide TextsJson, AsTexts;
  }

  lemma ExecRoundTrip(e: Exec)
    ensures ExecFrom(ExecJson(e)) == Some(e)
  {
    assert ExecJson(e).Obj?;
    hide Find, ExecJson, RequiredText, DefaultedTexts, OptionalText, OptionalBool;
    ExecMembers(e);
    PresentText(e.prog);
    MaybeTexts(e.args);
    MaybeText(e.pwd);
    MaybeText(e.user);
    MaybeBool(e.lineBufferedIo);
  }

  lemma StdioRoundTrip(s: Stdio)
    ensures StdioFrom(StdioJson(s)) == Some(s)
  {
    assert DATA != CLOSED;
    if s.Data? {
      EitherDataEncoding(s.bytes);
    }
  }

  ghost predicate BodyReadsBack(m: Message) {
    FromBody(VerbOfMessage(m), BodyJson(m)) == Some(m)
  }

  lemma StreamReadsBack(stream: Stream, s: Stdio)
    ensures BodyReadsBack(OnStream(stream, s))
  {
    StdioRoundTrip(s);
  }

  lemma StartedReadsBack(pid: u32)
    ensures BodyReadsBack(Started(pid))
  {
    SingleInt(PID, pid, 0, 0x1_0000_0000);
  }

  lemma KillReadsBack(signal: i32)
    ensures BodyReadsBack(Kill(signal))
  {
    SingleInt(SIGNAL, signal, -0x8000_0000, 0x8000_0000);
  }

  lemma ExitedReadsBack(status: i32)
    ensures BodyReadsBack(Exited(status))
  {
    SingleInt(STATUS, status, -0x8000_0000, 0x8000_0000);
  }

  lemma ErrorReadsBack(message: Text)
    ensures BodyReadsBack(Error(message))
  {
    hide Find;
    SingleText(MESSAGE, message);
  }

  lemma ExecReadsBack(e: Exec)
    ensures BodyReadsBack(ExecMessage(e))
  {
    ExecRoundTrip(e);
  }

  lemma BodyRoundTrip(m: Message)
    ensures BodyReadsBack(m)
  {
    match m
    case ExecMessage(e) => ExecReadsBack(e);
    case Started(pid) => StartedReadsBack(pid);
    case Stdin(s) => StreamReadsBack(StdinStream, s);
    case Stdout(s) => StreamReadsBack(StdoutStream, s);
    case Stderr(s) => StreamReadsBack(StderrStream, s);
    case Kill(signal) => KillReadsBack(signal);
    case Exited(status) => ExitedReadsBack(status);
    case Error(message) => ErrorReadsBack(message);
    case NoOp =>
  }

  /** What is printed is read back, for every message. */
  lemma DecodeEncode(m: Message)
    ensures Decode(Encode(m)) == Some(m)
  {
    hide Print, Parse, FromJson, ToJson;
    ParsePrint(ToJson(m));
    JsonRoundTrip(m);
  }

  lemma JsonRoundTrip(m: Message)
    ensures FromJson(ToJson(m)) == Some(m)
  {
    hide FromBody, BodyJson, VerbOf, Tag;
    VerbOfTag(VerbOfMessage(m));
    assert BodyReadsBack(m) by {
      BodyRoundTrip(m);
    }
  }

  /** A body is a non-empty line. */
  lemma EncodeIsOneLine(m: Message)
    ensures Encode(m) != [] && NEWLINE !in Encode(m)
  {
    PrintPrintable(ToJson(m));
  }

  /** What continues a frame that decodes, to another frame that decodes, is white space. */
  lemma DecodeIsPrefixFree(p: Bytes, q: Bytes)
    requires Decode(p).Some? && Decode(p + q).Some?
    ensures SkipSpace(q) == []
  {
    OnlyBlankContinues(p, q);
  }

  lemma CutBodyIsMalformed(m: Message, k: nat)
    requires k < |Encode(m)|
    ensures Decode(Encode(m)[..k]).None?
  {
    hide Encode, Decode;
    var body := Encode(m);
    DecodeEncode(m);
    EncodeEndsWithBrace(m);
    assert body[..k] + body[k..] == body;
    LastIsNotSkipped(body[k..]);
    if Decode(body[..k]).Some? {
      DecodeIsPrefixFree(body[..k], body[k..]);
    }
  }

  lemma EncodeEndsWithBrace(m: Message)
    ensures Encode(m) != [] && Encode(m)[|Encode(m)| - 1] == CLOSE_BRACE
  {
    assert ToJson(m).Obj?;
  }

  lemma {:induction false} LastIsNotSkipped(q: Bytes)
    requires q != [] && !IsSpace(q[|q| - 1])
    ensures SkipSpace(q) != []
  {
    if IsSpace(q[0]) {
      LastIsNotSkipped(q[1..]);
    }
  }

  // ---------------------------------------------------------------------------------------------------------------
  // Filters
  // ---------------------------------------------------------------------------------------------------------------

  /** `M::from_message`: the message as an `M`, or the message itself back. */
  type Filter<M> = Message -> Result<M, Message>

  ghost predicate GivesBack<M>(from: Filter<M>) {
    forall m :: from(m).Err? ==> from(m).error == m
  }

  ghost predicate Disjoint<M, N>(f: Filter<M>, g: Filter<N>) {
    forall m :: f(m).Err? || g(m).Err?
  }

  function ExecFromMessage(m: Message): Result<Exec, Message> {
    match m
    case ExecMessage(e) => Ok(e)
    case _ => Err(m)
  }

  function KillFromMessage(m: Message): Result<i32, Message> {
    match m
    case Kill(signal) => Ok(signal)
    case _ => Err(m)
  }

  function StartedFromMessage(m: Message): Result<u32, Message> {
    match m
    case Started(pid) => Ok(pid)
    case _ => Err(m)
  }

  function ExitedFromMessage(m: Message): Result<i32, Message> {
    match m
    case Exited(status) => Ok(status)
    case _ => Err(m)
  }

  function ErrorFromMessage(m: Message): Result<Text, Message> {
    match m
    case Error(message) => Ok(message)
    case _ => Err(m)
  }

  /** The three streams for which the source instantiates one family of filters. */
  datatype Stream = StdinStream | StdoutStream | StderrStream

  function OnStream(stream: Stream, s: Stdio): Message {
    match stream
    case StdinStream => Stdin(s)
    case StdoutStream => Stdout(s)
    case StderrStream => Stderr(s)
  }

  function StdioFromMessage(stream: Stream, m: Message): Result<Stdio, Message> {
    match (stream, m)
    case (StdinStream, Stdin(s)) => Ok(s)
    case (StdoutStream, Stdout(s)) => Ok(s)
    case (StderrStream, Stderr(s)) => Ok(s)
    case _ => Err(m)
  }

  /** The filter of `Stdin<Option<Bytes>>`: data is `Some`, the end of the stream is `None`. */
  function DataFromMessage(stream: Stream, m: Message): Result<Option<Bytes>, Message> {
    match StdioFromMessage(stream, m)
    case Ok(Data(bytes)) => Ok(Some(bytes))
    case Ok(Closed) => Ok(None)
    case Err(_) => Err(m)
  }

  /** The filter of `Stdin<Closed>`: the end of the stream alone. */
  function ClosedFromMessage(stream: Stream, m: Message): Result<(), Message> {
    match StdioFromMessage(stream, m)
    case Ok(Closed) => Ok(())
    case _ => Err(m)
  }

  /** The filter of `Stdin<Bytes>`: the data alone. */
  function BytesFromMessage(stream: Stream, m: Message): Result<Bytes, Message> {
    match StdioFromMessage(stream, m)
    case Ok(Data(bytes)) => Ok(bytes)
    case _ => Err(m)
  }

  function StdinFilter(): Filter<Option<Bytes>> {
    m => DataFromMessage(StdinStream, m)
  }

  function OutputFilter(stream: Stream): Filter<Stdio> {
    m => StdioFromMessage(stream, m)
  }

  function ClosedFilter(stream: Stream): Filter<()> {
    m => ClosedFromMessage(stream, m)
  }

  function BytesFilter(stream: Stream): Filter<Bytes> {
    m => BytesFromMessage(stream, m)
  }

  /** A refused message comes back unchanged, and no message is wanted by two of the agent's receivers. */
  lemma AgentFilters()
    ensures GivesBack(ExecFromMessage) && GivesBack(KillFromMessage) && GivesBack(StdinFilter())
    ensures forall s :: GivesBack(OutputFilter(s))
    ensures Disjoint(ExecFromMessage, KillFromMessage) && Disjoint(ExecFromMessage, StdinFilter())
    ensures Disjoint(KillFromMessage, StdinFilter()) && Disjoint(StdinFilter(), KillFromMessage)
    ensures forall s :: Disjoint(ExecFromMessage, OutputFilter(s)) && Disjoint(KillFromMessage, OutputFilter(s))
    ensures Disjoint(StdinFilter(), OutputFilter(StdoutStream)) && Disjoint(StdinFilter(), OutputFilter(StderrStream))
    ensures Disjoint(OutputFilter(StdoutStream), OutputFilter(StderrStream))
  {
  }

  /** The family of a stream: the filters for the data alone and for the end alone share what the filter for both takes
      without competing for it, and the streams do not compete with one another. */
  lemma StreamFilters(stream: Stream, other: Stream)
    ensures GivesBack(ClosedFilter(stream)) && GivesBack(BytesFilter(stream))
    ensures Disjoint(ClosedFilter(stream), BytesFilter(stream))
    ensures forall m :: OutputFilter(stream)(m).Ok? <==> ClosedFilter(stream)(m).Ok? || BytesFilter(stream)(m).Ok?
    ensures forall m :: OutputFilter(stream)(m).Ok? <==> DataFromMessage(stream, m).Ok?
    ensures stream != other ==> Disjoint(OutputFilter(stream), OutputFilter(other))
  {
  }
}
