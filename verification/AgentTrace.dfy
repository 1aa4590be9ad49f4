/** What each task of the agent contributes to the trace of accepted messages, and what its steps keep. */
module AgentTrace {
  import opened Basics
  import opened Connection
  import opened Messages
  import opened LineReader
  import opened TxSteps
  import RxSteps
  import opened EndToEnd
  import opened AgentSteps

  // ---------------------------------------------------------------------------------------------------------------
  // Projections of a trace
  // ---------------------------------------------------------------------------------------------------------------

  /** What a trace says on one stream. */
  function OfStream(trace: seq<Message>, stream: Stream): seq<Stdio> {
    if trace == [] then []
    else
      var n := |trace| - 1;
      OfStream(trace[..n], stream) + OnStreamOnly(stream, trace[n])
  }

  function OnStreamOnly(stream: Stream, m: Message): seq<Stdio> {
    match StdioFromMessage(stream, m)
    case Ok(s) => [s]
    case Err(_) => []
  }

  function ExitsIn(trace: seq<Message>): seq<i32> {
    if trace == [] then []
    else
      var n := |trace| - 1;
      ExitsIn(trace[..n]) + if trace[n].Exited? then [trace[n].status] else []
  }

  lemma TraceSnoc(trace: seq<Message>, m: Message, stream: Stream)
    ensures OfStream(trace + [m], stream) == OfStream(trace, stream) + OnStreamOnly(stream, m)
    ensures ExitsIn(trace + [m]) == ExitsIn(trace) + if m.Exited? then [m.status] else []
  {
    assert (trace + [m])[..|trace|] == trace;
  }

  /** The data of a stream, one payload a message. */
  function Payloads(v: seq<Stdio>): seq<Bytes> {
    if v == [] then []
    else
      var n := |v| - 1;
      Payloads(v[..n]) + if v[n].Data? then [v[n].bytes] else []
  }

  lemma PayloadsSnoc(v: seq<Stdio>, s: Stdio)
    ensures Payloads(v + [s]) == Payloads(v) + if s.Data? then [s.bytes] else []
  {
    assert (v + [s])[..|v|] == v;
  }

  predicate AllData(v: seq<Stdio>) {
    forall i | 0 <= i < |v| :: v[i].Data?
  }

  predicate EndsClosed(v: seq<Stdio>) {
    v != [] && v[|v| - 1] == Closed && AllData(v[..|v| - 1])
  }

  // ---------------------------------------------------------------------------------------------------------------
  // Sending one message
  // ---------------------------------------------------------------------------------------------------------------

  /** The trace is what the send buffer has accepted. */
  ghost predicate Linked(tx: Local, trace: seq<Message>) {
    Ledger(tx) && tx.accepted == Bodies(trace)
  }

  /** A future for one message, at any point of its life. */
  ghost predicate ForMessage(f: SendFuture, m: Message, flush: bool) {
    && f.flush == flush
    && (f.msgs == [] || f.msgs == [Sending(Some(Encode(m)))] || f.msgs == [Sending(None)])
  }

  lemma SendOneIsForMessage(m: Message, flush: bool)
    ensures ForMessage(SendOne(m, flush), m, flush) && Untaken(SendOne(m, flush))
  {
    hide Encode;
    assert SendOne(m, flush).msgs == [Sending(Some(Encode(m)))];
  }

  predicate Succeeded(result: Option<Outcome>) {
    result.Some? && result.value.Ready? && result.value.value.Ok?
  }

  lemma OneTurn(tx: Local, f: SendFuture, m: Message, flush: bool, trace: seq<Message>)
    requires Linked(tx, trace) && ForMessage(f, m, flush)
    ensures var t := SendTurn(Open(tx), f);
            var tx', trace' := TxAfter(t, tx), trace + Added(m, f, t.future);
            && Linked(tx', trace') && Extends(tx, tx')
            && ForMessage(t.future, m, flush)
            && (Untaken(t.future) ==> Untaken(f))
            && (Succeeded(t.result) ==> !Untaken(t.future) && (flush ==> tx'.settled == |trace'|))
  {
    hide Encode, PollSend, PollFlush, Wire;
    if f.msgs != [] {
      SendKeeps(tx, f.msgs[0]);
      BodiesAppend(trace, [m]);
      assert Bodies([m]) == [Encode(m)];
      assert trace + [] == trace && tx.accepted + [] == tx.accepted;
      var t := SendTurn(Open(tx), f);
      OkIsDone(t.result);
      assert t.result == None ==> t.future.msgs == [];
    } else {
      FlushDelivers(tx);
      assert trace + [] == trace;
      OkIsDone(SendTurn(Open(tx), f).result);
      assert |Bodies(trace)| == |trace|;
    }
  }

  lemma OkIsDone(result: Option<Outcome>)
    ensures Succeeded(result) <==> result == Some(DONE)
  {
    if Succeeded(result) {
      assert result.value.value.value == ();
    }
  }

  /** A message that a successful flush has covered. */
  ghost predicate Told(trace: seq<Message>, settled: nat, m: Message) {
    settled <= |trace| && m in trace[..settled]
  }

  lemma ToldStays(trace: seq<Message>, settled: nat, m: Message, trace': seq<Message>, settled': nat)
    requires Told(trace, settled, m) && trace <= trace' && settled <= settled' <= |trace'|
    ensures Told(trace', settled', m)
  {
    var k :| 0 <= k < settled && trace[k] == m;
    assert trace'[..settled'][k] == m;
  }

  lemma ToldAtLast(trace: seq<Message>, m: Message)
    requires m in trace
    ensures Told(trace, |trace|, m)
  {
    assert trace[..|trace|] == trace;
  }

  lemma OnStreamInTrace(trace: seq<Message>, stream: Stream, i: nat)
    requires i < |OfStream(trace, stream)|
    ensures OnStream(stream, OfStream(trace, stream)[i]) in trace
  {
    var n := |trace| - 1;
    if i < |OfStream(trace[..n], stream)| {
      OnStreamInTrace(trace[..n], stream, i);
    }
  }

  lemma ExitInTrace(trace: seq<Message>, i: nat)
    requires i < |ExitsIn(trace)|
    ensures Exited(ExitsIn(trace)[i]) in trace
  {
    var n := |trace| - 1;
    if i < |ExitsIn(trace[..n])| {
      ExitInTrace(trace[..n], i);
    }
  }

  // ---------------------------------------------------------------------------------------------------------------
  // The output tasks
  // ---------------------------------------------------------------------------------------------------------------

  /** What holds of an output stream at all times: data and then at most one closed; the data are a prefix of what the
      child writes, in line mode a prefix of its lines; and all of it, if there is a closed. */
  ghost predicate OutputSafe(v: seq<Stdio>, start: Splitting, lineBuffered: bool) {
    var payloads := Payloads(v);
    && (AllData(v) || EndsClosed(v))
    && (forall i | 0 <= i < |payloads| :: payloads[i] != [])
    && Concat(payloads) <= Ahead(start)
    && (lineBuffered ==> payloads <= Lines(Ahead(start)))
    && (EndsClosed(v) ==>
          Concat(payloads) == Ahead(start) && (lineBuffered ==> payloads == Lines(Ahead(start))))
  }

  ghost predicate OutputInv(task: OutputTask, lineBuffered: bool, trace: seq<Message>, settled: nat) {
    var v := OfStream(trace, task.stream);
    match task.phase
    case Copying => AllData(v) && Leads(task.start, Payloads(v), task.splitting, lineBuffered)
    case SendingData(data, send) =>
      && ForMessage(send, OnStream(task.stream, Data(data)), false)
      && AllData(v)
      && Leads(task.start, Payloads(v) + (if Untaken(send) then [data] else []), task.splitting, lineBuffered)
    case SendingClosed(send) =>
      && ForMessage(send, OnStream(task.stream, Closed), true)
      && Leads(task.start, Payloads(v), task.splitting, lineBuffered) && Ahead(task.splitting) == []
      && (if Untaken(send) then AllData(v) else EndsClosed(v))
    case CopyEnded(ok) =>
      && OutputSafe(v, task.start, lineBuffered)
      && (ok ==> EndsClosed(v) && Told(trace, settled, OnStream(task.stream, Closed)))
  }

  lemma LeadsSafely(v: seq<Stdio>, more: seq<Bytes>, start: Splitting, rest: Splitting, lineBuffered: bool)
    requires AllData(v) || EndsClosed(v)
    requires Leads(start, Payloads(v) + more, rest, lineBuffered)
    requires EndsClosed(v) ==> more == [] && Ahead(rest) == []
    ensures OutputSafe(v, start, lineBuffered)
  {
    ConcatAppend(Payloads(v), more);
    assert forall i | 0 <= i < |Payloads(v)| :: Payloads(v)[i] == (Payloads(v) + more)[i];
    if EndsClosed(v) {
      assert Payloads(v) + [] == Payloads(v);
      assert Lines([]) == [];
    }
    hide Ahead, Lines, Concat, Payloads;
  }

  lemma OutputInvSafe(task: OutputTask, lineBuffered: bool, trace: seq<Message>, settled: nat)
    requires OutputInv(task, lineBuffered, trace, settled)
    ensures OutputSafe(OfStream(trace, task.stream), task.start, lineBuffered)
  {
    var v := OfStream(trace, task.stream);
    hide Leads, ForMessage, OutputSafe, OfStream, Payloads;
    assert Payloads(v) + [] == Payloads(v);
    match task.phase
    case Copying =>
      assert AllData(v) ==> !EndsClosed(v);
      LeadsSafely(v, [], task.start, task.splitting, lineBuffered);
    case SendingData(data, send) =>
      LeadsSafely(v, if Untaken(send) then [data] else [], task.start, task.splitting, lineBuffered);
    case SendingClosed(_) => LeadsSafely(v, [], task.start, task.splitting, lineBuffered);
    case CopyEnded(_) =>
  }

  /** Steps of others leave the invariant alone. */
  lemma OutputFrame(
    task: OutputTask, lineBuffered: bool, trace: seq<Message>, settled: nat, trace': seq<Message>, settled': nat)
    requires OutputInv(task, lineBuffered, trace, settled)
    requires OfStream(trace', task.stream) == OfStream(trace, task.stream)
    requires trace <= trace' && settled <= settled' <= |trace'|
    ensures OutputInv(task, lineBuffered, trace', settled')
  {
    if task.phase == CopyEnded(true) {
      ToldStays(trace, settled, OnStream(task.stream, Closed), trace', settled');
    }
  }

  /** What a step of an output task promises: the invariant, at most one more message, on its own stream, and a success
      only when everything accepted is settled. */
  ghost predicate OutputStepOk(
    tx: Local, task: OutputTask, lineBuffered: bool, trace: seq<Message>, o: OutputStep)
  {
    && Linked(o.tx, trace + o.added) && Extends(tx, o.tx)
    && OutputInv(o.task, lineBuffered, trace + o.added, o.tx.settled)
    && o.task.stream == task.stream && o.task.start == task.start
    && |o.added| <= 1 && (o.added != [] ==> StdioFromMessage(task.stream, o.added[0]).Ok?)
    && (o.task.phase == CopyEnded(true) && task.phase != CopyEnded(true) ==> o.tx.settled == |trace + o.added|)
    && (task.phase.CopyEnded? ==> o == OutputStep(tx, task, []))
  }

  lemma Stays(tx: Local, trace: seq<Message>)
    requires Linked(tx, trace)
    ensures Extends(tx, tx) && Linked(tx, trace + []) && trace + [] == trace
  {
    assert trace + [] == trace;
  }

  lemma CopyStep(tx: Local, task: OutputTask, lineBuffered: bool, trace: seq<Message>)
    requires Linked(tx, trace) && OutputInv(task, lineBuffered, trace, tx.settled) && task.phase == Copying
    ensures OutputStepOk(tx, task, lineBuffered, trace, PollCopying(tx, task, lineBuffered))
  {
    hide Linked, Extends, Ledger, Wire, Bodies, Encode, NewFuture, SendOne, SendTurn, ForMessage, Leads, OfStream,
      Payloads, Ahead, PollPiece;
    var p := PollPiece(task.splitting, lineBuffered);
    var v := OfStream(trace, task.stream);
    Stays(tx, trace);
    PieceLeads(task.splitting, lineBuffered);
    LeadsOn(task.start, Payloads(v), task.splitting, PieceOf(p.piece), p.rest, lineBuffered);
    assert Payloads(v) + [] == Payloads(v);
    SendOneIsForMessage(OnStream(task.stream, Closed), true);
    if p.piece.Ready? && p.piece.value.Ok? && p.piece.value.value.Some? {
      SendOneIsForMessage(OnStream(task.stream, Data(p.piece.value.value.value)), false);
    } else if p.piece.Ready? && p.piece.value.Err? {
      assert AllData(v) ==> !EndsClosed(v);
      LeadsSafely(v, [], task.start, p.rest, lineBuffered);
    }
  }

  lemma StreamSnoc(trace: seq<Message>, stream: Stream, s: Stdio)
    ensures OfStream(trace + [OnStream(stream, s)], stream) == OfStream(trace, stream) + [s]
  {
    hide OfStream, ExitsIn;
    TraceSnoc(trace, OnStream(stream, s), stream);
  }

  lemma ShapeSnoc(v: seq<Stdio>, s: Stdio)
    requires AllData(v)
    ensures Payloads(v + [s]) == Payloads(v) + (if s.Data? then [s.bytes] else [])
    ensures if s.Data? then AllData(v + [s]) else EndsClosed(v + [s])
  {
    PayloadsSnoc(v, s);
    assert (v + [s])[..|v|] == v;
  }

  lemma DataStep(
    tx: Local, task: OutputTask, data: Bytes, send: SendFuture, lineBuffered: bool, trace: seq<Message>)
    requires Linked(tx, trace) && OutputInv(task, lineBuffered, trace, tx.settled)
    requires task.phase == SendingData(data, send)
    ensures OutputStepOk(tx, task, lineBuffered, trace, PollData(tx, task, data, send))
  {
    hide Linked, Extends, Ledger, Wire, Bodies, Encode, NewFuture, SendOne, SendTurn, ForMessage, Leads, OfStream,
      Payloads, Ahead;
    var v := OfStream(trace, task.stream);
    OneTurn(tx, send, OnStream(task.stream, Data(data)), false, trace);
    StreamSnoc(trace, task.stream, Data(data));
    ShapeSnoc(v, Data(data));
    Stays(tx, trace);
    var o := PollData(tx, task, data, send);
    var t := SendTurn(Open(tx), send);
    var v' := OfStream(trace + o.added, task.stream);
    var more := if Untaken(t.future) then [data] else [];
    assert Payloads(v) + [] == Payloads(v) && Payloads(v') + [] == Payloads(v');
    assert Leads(task.start, Payloads(v') + more, task.splitting, lineBuffered);
    assert AllData(v') ==> !EndsClosed(v');
    LeadsSafely(v', more, task.start, task.splitting, lineBuffered);
    hide OutputSafe;
  }

  lemma ClosedStep(tx: Local, task: OutputTask, send: SendFuture, lineBuffered: bool, trace: seq<Message>)
    requires Linked(tx, trace) && OutputInv(task, lineBuffered, trace, tx.settled)
    requires task.phase == SendingClosed(send)
    ensures OutputStepOk(tx, task, lineBuffered, trace, PollClosed(tx, task, send))
  {
    hide Linked, Extends, Ledger, Wire, Bodies, Encode, NewFuture, SendOne, SendTurn, ForMessage, Leads, OfStream,
      Payloads, Ahead;
    var v := OfStream(trace, task.stream);
    OneTurn(tx, send, OnStream(task.stream, Closed), true, trace);
    StreamSnoc(trace, task.stream, Closed);
    if AllData(v) {
      ShapeSnoc(v, Closed);
    }
    Stays(tx, trace);
    var o := PollClosed(tx, task, send);
    var t := SendTurn(Open(tx), send);
    var v' := OfStream(trace + o.added, task.stream);
    assert if Untaken(t.future) then AllData(v') else EndsClosed(v');
    assert Payloads(v') == Payloads(v) && Payloads(v') + [] == Payloads(v');
    LeadsSafely(v', [], task.start, task.splitting, lineBuffered);
    hide OutputSafe;
    if o.task.phase == CopyEnded(true) {
      OnStreamInTrace(trace + o.added, task.stream, |v'| - 1);
      ToldAtLast(trace + o.added, OnStream(task.stream, Closed));
    }
  }

  lemma OutputKeeps(tx: Local, task: OutputTask, lineBuffered: bool, trace: seq<Message>)
    requires Linked(tx, trace) && OutputInv(task, lineBuffered, trace, tx.settled)
    ensures OutputStepOk(tx, task, lineBuffered, trace, PollOutput(tx, task, lineBuffered))
  {
    hide Linked, Extends, OutputInv, PollCopying, PollData, PollClosed;
    match task.phase
    case Copying => CopyStep(tx, task, lineBuffered, trace);
    case SendingData(data, send) => DataStep(tx, task, data, send, lineBuffered, trace);
    case SendingClosed(send) => ClosedStep(tx, task, send, lineBuffered, trace);
    case CopyEnded(_) => Stays(tx, trace);
  }

  /** The host's request can only end the copying. */
  lemma HostCloseKeeps(
    rx: RxSteps.Local, task: OutputTask, closes: bool, lineBuffered: bool, trace: seq<Message>, settled: nat)
    requires OutputInv(task, lineBuffered, trace, settled)
    ensures var h := PollHostClose(rx, task, closes);
            && OutputInv(h.task, lineBuffered, trace, settled)
            && (h.task == task || h.task == task.(phase := CopyEnded(false)))
  {
    OutputInvSafe(task, lineBuffered, trace, settled);
    hide RxSteps.PollRecv, OutputSafe;
  }

  // ---------------------------------------------------------------------------------------------------------------
  // The exit task
  // ---------------------------------------------------------------------------------------------------------------

  ghost predicate ExitInv(phase: ExitPhase, trace: seq<Message>, settled: nat) {
    var exits := ExitsIn(trace);
    match phase
    case Waiting => exits == []
    case SendingExited(status, send) =>
      && ForMessage(send, Exited(status), true)
      && exits == if Untaken(send) then [] else [status]
    case ExitEnded(ok) =>
      && |exits| <= 1
      && (ok ==> |exits| == 1 && Told(trace, settled, Exited(exits[0])))
  }

  lemma ExitFrame(phase: ExitPhase, trace: seq<Message>, settled: nat, trace': seq<Message>, settled': nat)
    requires ExitInv(phase, trace, settled)
    requires ExitsIn(trace') == ExitsIn(trace) && trace <= trace' && settled <= settled' <= |trace'|
    ensures ExitInv(phase, trace', settled')
  {
    if phase == ExitEnded(true) {
      ToldStays(trace, settled, Exited(ExitsIn(trace)[0]), trace', settled');
    }
  }

  ghost predicate ExitStepOk(tx: Local, phase: ExitPhase, trace: seq<Message>, x: ExitStep) {
    && Linked(x.tx, trace + x.added) && Extends(tx, x.tx)
    && ExitInv(x.phase, trace + x.added, x.tx.settled)
    && |x.added| <= 1 && (x.added != [] ==> x.added[0].Exited?)
    && (x.phase == ExitEnded(true) && phase != ExitEnded(true) ==> x.tx.settled == |trace + x.added|)
    && (phase.ExitEnded? ==> x == ExitStep(tx, phase, []))
  }

  lemma ExitedStep(tx: Local, status: i32, send: SendFuture, trace: seq<Message>)
    requires Linked(tx, trace) && ExitInv(SendingExited(status, send), trace, tx.settled)
    ensures ExitStepOk(tx, SendingExited(status, send), trace, PollExited(tx, status, send))
  {
    hide Linked, Extends, Ledger, Wire, Bodies, Encode, NewFuture, SendOne, SendTurn, ForMessage, ExitsIn,
      Untaken, Told;
    OneTurn(tx, send, Exited(status), true, trace);
    TraceSnoc(trace, Exited(status), StdinStream);
    Stays(tx, trace);
    var x := PollExited(tx, status, send);
    if x.phase == ExitEnded(true) {
      ExitInTrace(trace + x.added, 0);
      ToldAtLast(trace + x.added, Exited(status));
    }
  }

  lemma ExitKeeps(tx: Local, phase: ExitPhase, result: WaitResult, trace: seq<Message>)
    requires Linked(tx, trace) && ExitInv(phase, trace, tx.settled)
    ensures ExitStepOk(tx, phase, trace, PollExit(tx, phase, result))
  {
    hide Linked, Extends, Ledger, Wire, Bodies, Encode, NewFuture, SendOne, SendTurn, ForMessage, PollExited;
    Stays(tx, trace);
    match phase
    case Waiting =>
      if result.Exits? {
        SendOneIsForMessage(Exited(result.status), true);
      }
    case SendingExited(status, send) => ExitedStep(tx, status, send, trace);
    case ExitEnded(_) =>
  }

  // ---------------------------------------------------------------------------------------------------------------
  // The stdin task: what it says
  // ---------------------------------------------------------------------------------------------------------------

  ghost predicate StdinInv(phase: StdinPhase, trace: seq<Message>, settled: nat) {
    var v := OfStream(trace, StdinStream);
    match phase
    case Receiving => v == []
    case Writing(_) => v == []
    case SendingStdinClosed(send) =>
      && ForMessage(send, Stdin(Closed), true)
      && v == if Untaken(send) then [] else [Closed]
    case StdinEnded(ok) =>
      && (v == [] || v == [Closed])
      && (ok ==> v == [Closed] && Told(trace, settled, Stdin(Closed)))
  }

  lemma StdinFrame(phase: StdinPhase, trace: seq<Message>, settled: nat, trace': seq<Message>, settled': nat)
    requires StdinInv(phase, trace, settled)
    requires OfStream(trace', StdinStream) == OfStream(trace, StdinStream)
    requires trace <= trace' && settled <= settled' <= |trace'|
    ensures StdinInv(phase, trace', settled')
  {
    if phase == StdinEnded(true) {
      ToldStays(trace, settled, Stdin(Closed), trace', settled');
    }
  }

  ghost predicate StdinStepOk(tx: Local, rx: RxSteps.Local, task: StdinTask, trace: seq<Message>, s: StdinStep) {
    && Linked(s.tx, trace + s.added) && Extends(tx, s.tx)
    && StdinInv(s.task.phase, trace + s.added, s.tx.settled)
    && (s.added == [] || s.added == [Stdin(Closed)])
    && (s.task.phase == StdinEnded(true) && task.phase != StdinEnded(true) ==> s.tx.settled == |trace + s.added|)
    && (task.phase.StdinEnded? ==> s == StdinStep(tx, rx, task, []))
  }

  lemma StdinClosedStep(tx: Local, rx: RxSteps.Local, task: StdinTask, send: SendFuture, trace: seq<Message>)
    requires Linked(tx, trace) && StdinInv(task.phase, trace, tx.settled) && task.phase == SendingStdinClosed(send)
    ensures StdinStepOk(tx, rx, task, trace, PollStdinClosed(tx, rx, task, send))
  {
    hide Linked, Extends, Ledger, Wire, Bodies, Encode, NewFuture, SendOne, SendTurn, ForMessage, OfStream, Untaken,
      Told;
    OneTurn(tx, send, Stdin(Closed), true, trace);
    TraceSnoc(trace, Stdin(Closed), StdinStream);
    Stays(tx, trace);
    var s := PollStdinClosed(tx, rx, task, send);
    if s.task.phase == StdinEnded(true) {
      OnStreamInTrace(trace + s.added, StdinStream, 0);
      ToldAtLast(trace + s.added, Stdin(Closed));
    }
  }

  lemma StdinKeeps(tx: Local, rx: RxSteps.Local, task: StdinTask, trace: seq<Message>)
    requires Linked(tx, trace) && StdinInv(task.phase, trace, tx.settled)
    ensures StdinStepOk(tx, rx, task, trace, PollStdin(tx, rx, task))
  {
    hide StdinFilter, DataFromMessage, Decode, Untaken, Told, Linked, Extends, Ledger, Wire, Bodies, Encode, NewFuture,
      SendOne, SendTurn, ForMessage, OfStream, PollStdinClosed, Transmit, RxSteps.PollRecv;
    Stays(tx, trace);
    SendOneIsForMessage(Stdin(Closed), true);
    match task.phase
    case Receiving =>
    case Writing(_) =>
    case SendingStdinClosed(send) => StdinClosedStep(tx, rx, task, send, trace);
    case StdinEnded(_) =>
  }

  // ---------------------------------------------------------------------------------------------------------------
  // The stdin task: what it forwards
  // ---------------------------------------------------------------------------------------------------------------

  /** The data before the first end of the stream. */
  function Target(values: seq<Option<Bytes>>): Bytes {
    if values == [] || values[0].None? then [] else values[0].value + Target(values[1..])
  }

  predicate AllSome(values: seq<Option<Bytes>>) {
    forall i | 0 <= i < |values| :: values[i].Some?
  }

  lemma {:induction false} TargetAppend(a: seq<Option<Bytes>>, b: seq<Option<Bytes>>)
    requires AllSome(a)
    ensures Target(a + b) == Target(a) + Target(b)
  {
    if a == [] {
      assert a + b == b;
    } else {
      assert (a + b)[1..] == a[1..] + b;
      TargetAppend(a[1..], b);
    }
  }

  function StdinLeft(rx: RxSteps.Local): seq<Option<Bytes>> {
    RxSteps.Wanted(RxSteps.Log(rx, Decode), StdinFilter())
  }

  /** What was received and what is left to receive is all there is; what was written to the child and what is being
      written is the data received so far; when the task goes on to say that stdin is closed, it is all the data there
      is before the end of the stream. */
  ghost predicate ForwardInv(task: StdinTask, rx: RxSteps.Local, all: seq<Option<Bytes>>) {
    && task.had + StdinLeft(rx) == all
    && match task.phase
       case Receiving => AllSome(task.had) && task.child.written == Target(task.had)
       case Writing(rest) => AllSome(task.had) && task.child.written + rest == Target(task.had)
       case SendingStdinClosed(_) => task.child.written == Target(all)
       case StdinEnded(ok) => task.child.written <= Target(all) && (ok ==> task.child.written == Target(all))
  }

  /** The data of a stream end with it. */
  lemma TargetEnds(had: seq<Option<Bytes>>, left: seq<Option<Bytes>>)
    requires AllSome(had) && (left == [] || left[0].None?)
    ensures Target(had + left) == Target(had)
  {
    TargetAppend(had, left);
    assert Target(left) == [];
    hide Target;
    assert Target(had) + [] == Target(had);
  }

  lemma TargetSnoc(had: seq<Option<Bytes>>, data: Bytes)
    requires AllSome(had)
    ensures Target(had + [Some(data)]) == Target(had) + data
  {
    var more: seq<Option<Bytes>> := [Some(data)];
    TargetAppend(had, more);
    assert more[1..] == [] && Target(more) == data + [];
    hide Target;
  }

  lemma TargetPrefix(had: seq<Option<Bytes>>, left: seq<Option<Bytes>>)
    requires AllSome(had)
    ensures Target(had) <= Target(had + left)
  {
    TargetAppend(had, left);
    hide Target;
  }

  /** What a poll for stdin leaves. */
  lemma ReceiveLeaves(rx: RxSteps.Local)
    ensures var p: RxSteps.PolledRecv<Option<Bytes>> := RxSteps.PollRecv(rx, StdinFilter(), Decode);
            && StdinLeft(rx) == RxSteps.ValueOf(p.answer) + StdinLeft(p.local)
            && (p.answer == Ready(Ok(None)) ==> StdinLeft(p.local) == [])
  {
    hide RxSteps.PollRecv, RxSteps.Wanted, RxSteps.Log, StdinFilter, Decode;
    AgentFilters();
    RxSteps.RecvTakesOwn(rx, StdinFilter(), Decode);
  }

  lemma ReceiveForwards(tx: Local, rx: RxSteps.Local, task: StdinTask, all: seq<Option<Bytes>>)
    requires ForwardInv(task, rx, all) && task.phase == Receiving
    ensures ForwardInv(PollReceiving(tx, rx, task).task, PollReceiving(tx, rx, task).rx, all)
  {
    hide RxSteps.PollRecv, SendOne, StdinFilter, StdinLeft, Target, Decode;
    ReceiveLeaves(rx);
    var p: RxSteps.PolledRecv<Option<Bytes>> := RxSteps.PollRecv(rx, StdinFilter(), Decode);
    var left, left' := StdinLeft(rx), StdinLeft(p.local);
    assert task.had + left == (task.had + RxSteps.ValueOf(p.answer)) + left';
    assert task.had + [] == task.had && [] + left' == left';
    match p.answer
    case Pending =>
    case Ready(Ok(Some(Some(data)))) => TargetSnoc(task.had, data);
    case Ready(Ok(_)) => TargetEnds(task.had, left);
    case Ready(Err(_)) => TargetPrefix(task.had, left);
  }

  lemma WriteForwards(tx: Local, rx: RxSteps.Local, task: StdinTask, rest: Bytes, all: seq<Option<Bytes>>)
    requires ForwardInv(task, rx, all) && task.phase == Writing(rest)
    ensures ForwardInv(PollWriting(tx, rx, task, rest).task, PollWriting(tx, rx, task, rest).rx, all)
  {
    hide StdinLeft, Transmit;
    TransmitMoves(task.child, rest);
    TargetAppend(task.had, StdinLeft(rx));
    hide Target;
    var w := Transmit(task.child, rest);
    assert w.rest == [] ==> w.sink.written + w.rest == w.sink.written;
  }

  lemma ForwardKeeps(tx: Local, rx: RxSteps.Local, task: StdinTask, all: seq<Option<Bytes>>)
    requires ForwardInv(task, rx, all)
    ensures ForwardInv(PollStdin(tx, rx, task).task, PollStdin(tx, rx, task).rx, all)
  {
    hide PollReceiving, PollWriting, SendTurn, StdinLeft;
    match task.phase
    case Receiving => ReceiveForwards(tx, rx, task, all);
    case Writing(rest) => WriteForwards(tx, rx, task, rest, all);
    case SendingStdinClosed(_) =>
    case StdinEnded(_) =>
  }
}
