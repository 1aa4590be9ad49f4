/** The agent: the run of `main` from the first receive to the final close, with its four cooperating tasks over one
    receive handle and one send handle. A step is one poll of one future of one task; steps come in any order. What the
    operating system does is chosen by the event: the result of a spawn, of a wait, of closing a descriptor, and the text
    of an error. */
module AgentSteps {
  import opened Basics
  import opened Connection
  import opened Source
  import opened Json
  import opened Messages
  import opened LineReader
  import opened TxSteps
  import opened Framing
  import RxSteps
  import opened Runs

  /** `send` or `send_and_flush` of one message. */
  function SendOne(m: Message, flush: bool): SendFuture {
    NewFuture([Encode(m)], flush)
  }

  /** Whether the message of a one-message future is still to be accepted. */
  predicate Untaken(f: SendFuture) {
    f.msgs != [] && f.msgs[0].body.Some?
  }

  /** What accepting has added to the trace. */
  function Added(m: Message, before: SendFuture, after: SendFuture): seq<Message> {
    if Untaken(before) && !Untaken(after) then [m] else []
  }

  // ---------------------------------------------------------------------------------------------------------------
  // The tasks that copy the child's stdout and stderr
  // ---------------------------------------------------------------------------------------------------------------

  datatype OutputPhase =
    | Copying
    | SendingData(data: Bytes, send: SendFuture)
    | SendingClosed(send: SendFuture)
    | CopyEnded(ok: bool)

  /** `start` is what the task began with. */
  datatype OutputTask = OutputTask(stream: Stream, start: Splitting, splitting: Splitting, phase: OutputPhase)

  datatype OutputStep = OutputStep(tx: Local, task: OutputTask, added: seq<Message>)

  function TxAfter(t: Turn, tx: Local): Local {
    if t.tx.Open? then t.tx.local else tx
  }

  function PollCopying(tx: Local, task: OutputTask, lineBuffered: bool): OutputStep {
    var p := PollPiece(task.splitting, lineBuffered);
    var phase :=
      match p.piece
      case Pending => Copying
      case Ready(Err(_)) => CopyEnded(false)
      case Ready(Ok(None)) => SendingClosed(SendOne(OnStream(task.stream, Closed), true))
      case Ready(Ok(Some(data))) => SendingData(data, SendOne(OnStream(task.stream, Data(data)), false));
    OutputStep(tx, task.(splitting := p.rest, phase := phase), [])
  }

  function PollData(tx: Local, task: OutputTask, data: Bytes, send: SendFuture): OutputStep {
    var t := SendTurn(Open(tx), send);
    var phase :=
      match t.result
      case Some(Ready(Ok(_))) => Copying
      case Some(Ready(Err(_))) => CopyEnded(false)
      case _ => SendingData(data, t.future);
    OutputStep(TxAfter(t, tx), task.(phase := phase), Added(OnStream(task.stream, Data(data)), send, t.future))
  }

  function PollClosed(tx: Local, task: OutputTask, send: SendFuture): OutputStep {
    var t := SendTurn(Open(tx), send);
    var phase :=
      match t.result
      case Some(Ready(Ok(_))) => CopyEnded(true)
      case Some(Ready(Err(_))) => CopyEnded(false)
      case _ => SendingClosed(t.future);
    OutputStep(TxAfter(t, tx), task.(phase := phase), Added(OnStream(task.stream, Closed), send, t.future))
  }

  function PollOutput(tx: Local, task: OutputTask, lineBuffered: bool): OutputStep {
    match task.phase
    case Copying => PollCopying(tx, task, lineBuffered)
    case SendingData(data, send) => PollData(tx, task, data, send)
    case SendingClosed(send) => PollClosed(tx, task, send)
    case CopyEnded(_) => OutputStep(tx, task, [])
  }

  datatype HostStep = HostStep(rx: RxSteps.Local, task: OutputTask)

  /** The other branch of the select: the host may close the stream. An answer that does not match disables the branch. */
  function PollHostClose(rx: RxSteps.Local, task: OutputTask, closes: bool): HostStep {
    if task.phase != Copying then HostStep(rx, task)
    else
      var p := RxSteps.PollRecv(rx, OutputFilter(task.stream), Decode);
      if p.answer == Ready(Ok(Some(Closed))) && !closes
      then HostStep(p.local, task.(phase := CopyEnded(false)))
      else HostStep(p.local, task)
  }

  // ---------------------------------------------------------------------------------------------------------------
  // The task that copies to the child's stdin
  // ---------------------------------------------------------------------------------------------------------------

  datatype StdinPhase =
    | Receiving
    | Writing(rest: Bytes)
    | SendingStdinClosed(send: SendFuture)
    | StdinEnded(ok: bool)

  /** `child` is the pipe to the child, `had` what the task has received so far. */
  datatype StdinTask = StdinTask(child: Sink, had: seq<Option<Bytes>>, phase: StdinPhase)

  datatype StdinStep = StdinStep(tx: Local, rx: RxSteps.Local, task: StdinTask, added: seq<Message>)

  function PollReceiving(tx: Local, rx: RxSteps.Local, task: StdinTask): StdinStep {
    var p: RxSteps.PolledRecv<Option<Bytes>> := RxSteps.PollRecv(rx, StdinFilter(), Decode);
    var phase :=
      match p.answer
      case Pending => Receiving
      case Ready(Err(_)) => StdinEnded(false)
      case Ready(Ok(Some(Some(data)))) => Writing(data)
      case Ready(Ok(_)) => SendingStdinClosed(SendOne(Stdin(Closed), true));
    StdinStep(tx, p.local, task.(had := task.had + RxSteps.ValueOf(p.answer), phase := phase), [])
  }

  function PollWriting(tx: Local, rx: RxSteps.Local, task: StdinTask, rest: Bytes): StdinStep {
    var w := Transmit(task.child, rest);
    var phase :=
      if w.outcome == DONE then Receiving
      else if w.outcome.Pending? then Writing(w.rest)
      else StdinEnded(false);
    StdinStep(tx, rx, task.(child := w.sink, phase := phase), [])
  }

  function PollStdinClosed(tx: Local, rx: RxSteps.Local, task: StdinTask, send: SendFuture): StdinStep {
    var t := SendTurn(Open(tx), send);
    var phase :=
      match t.result
      case Some(Ready(Ok(_))) => StdinEnded(true)
      case Some(Ready(Err(_))) => StdinEnded(false)
      case _ => SendingStdinClosed(t.future);
    StdinStep(TxAfter(t, tx), rx, task.(phase := phase), Added(Stdin(Closed), send, t.future))
  }

  function PollStdin(tx: Local, rx: RxSteps.Local, task: StdinTask): StdinStep {
    match task.phase
    case Receiving => PollReceiving(tx, rx, task)
    case Writing(rest) => PollWriting(tx, rx, task, rest)
    case SendingStdinClosed(send) => PollStdinClosed(tx, rx, task, send)
    case StdinEnded(_) => StdinStep(tx, rx, task, [])
  }

  // ---------------------------------------------------------------------------------------------------------------
  // The task that delivers signals and waits for the child
  // ---------------------------------------------------------------------------------------------------------------

  datatype ExitPhase = Waiting | SendingExited(status: i32, send: SendFuture) | ExitEnded(ok: bool)

  datatype WaitResult = StillRunning | WaitFails | Exits(status: i32)

  datatype KillStep = KillStep(rx: RxSteps.Local, phase: ExitPhase, signals: seq<i32>)

  function PollKill(rx: RxSteps.Local, phase: ExitPhase): KillStep {
    if phase != Waiting then KillStep(rx, phase, [])
    else
      var p := RxSteps.PollRecv(rx, KillFromMessage, Decode);
      KillStep(p.local, if p.answer.Ready? && p.answer.value.Err? then ExitEnded(false) else Waiting,
               RxSteps.ValueOf(p.answer))
  }

  datatype ExitStep = ExitStep(tx: Local, phase: ExitPhase, added: seq<Message>)

  function PollExited(tx: Local, status: i32, send: SendFuture): ExitStep {
    var t := SendTurn(Open(tx), send);
    var phase :=
      match t.result
      case Some(Ready(Ok(_))) => ExitEnded(true)
      case Some(Ready(Err(_))) => ExitEnded(false)
      case _ => SendingExited(status, t.future);
    ExitStep(TxAfter(t, tx), phase, Added(Exited(status), send, t.future))
  }

  function PollExit(tx: Local, phase: ExitPhase, result: WaitResult): ExitStep {
    match phase
    case Waiting =>
      var phase' :=
        match result
        case StillRunning => Waiting
        case WaitFails => ExitEnded(false)
        case Exits(status) => SendingExited(status, SendOne(Exited(status), true));
      ExitStep(tx, phase', [])
    case SendingExited(status, send) => PollExited(tx, status, send)
    case ExitEnded(_) => ExitStep(tx, phase, [])
  }

  // ---------------------------------------------------------------------------------------------------------------
  // The whole run
  // ---------------------------------------------------------------------------------------------------------------

  datatype MainPhase =
    | AwaitingExec
    | Spawning
    | SendingStarted(pid: u32, send: SendFuture)
    | Joining
    | SendingError(text: Text, send: SendFuture)
    | Flushing(send: SendFuture)
    | ClosingFlush(send: SendFuture)
    | ClosingTx(stage: CloseStage)
    | Finished

  /** `trace` are the messages that have entered the send buffer; `status` is the result of the run once it has one. */
  datatype Agent = Agent(
    main: MainPhase, status: Option<bool>, tx: Local, rx: RxSteps.Local, lineBuffered: bool,
    exit: ExitPhase, stdin: StdinTask, stdout: OutputTask, stderr: OutputTask,
    signals: seq<i32>, trace: seq<Message>)

  datatype SpawnResult = SpawnPending | SpawnFails | Spawned(pid: u32)

  datatype AgentEvent =
    | MainPoll(spawn: SpawnResult, reason: Text)
    | KillPoll
    | ExitPoll(result: WaitResult)
    | StdinPoll
    | StdoutPoll
    | StderrPoll
    | StdoutHostPoll(closes: bool)
    | StderrHostPoll(closes: bool)

  /** Main and the tasks that it joins. */
  datatype Part = MainPart | ExitPart | StdinPart | StdoutPart | StderrPart

  function PartOf(e: AgentEvent): Part {
    match e
    case MainPoll(_, _) => MainPart
    case KillPoll => ExitPart
    case ExitPoll(_) => ExitPart
    case StdinPoll => StdinPart
    case StdoutPoll => StdoutPart
    case StdoutHostPoll(_) => StdoutPart
    case StderrPoll => StderrPart
    case StderrHostPoll(_) => StderrPart
  }

  function Fail(a: Agent, reason: Text): Agent {
    a.(main := SendingError(reason, SendOne(Error(reason), false)), status := Some(false))
  }

  /** An absent option means line-buffered. */
  function LineBuffered(e: Exec): bool {
    e.lineBufferedIo.None? || e.lineBufferedIo.value
  }

  function PollAwait(a: Agent, reason: Text): Agent {
    var p := RxSteps.PollRecv(a.rx, ExecFromMessage, Decode);
    var a' := a.(rx := p.local);
    match p.answer
    case Pending => a'
    case Ready(Ok(Some(exec))) => a'.(main := Spawning, lineBuffered := LineBuffered(exec))
    case Ready(_) => Fail(a', reason)
  }

  function PollSpawn(a: Agent, spawn: SpawnResult, reason: Text): Agent {
    match spawn
    case SpawnPending => a
    case SpawnFails => Fail(a, reason)
    case Spawned(pid) => a.(main := SendingStarted(pid, SendOne(Started(pid), false)))
  }

  function PollStarted(a: Agent, pid: u32, send: SendFuture, reason: Text): Agent {
    var t := SendTurn(Open(a.tx), send);
    var a' := a.(tx := TxAfter(t, a.tx), trace := a.trace + Added(Started(pid), send, t.future));
    match t.result
    case Some(Ready(Ok(_))) => a'.(main := Joining)
    case Some(Ready(Err(_))) => Fail(a', reason)
    case _ => a'.(main := SendingStarted(pid, t.future))
  }

  predicate AllEnded(a: Agent) {
    a.exit.ExitEnded? && a.stdin.phase.StdinEnded? && a.stdout.phase.CopyEnded? && a.stderr.phase.CopyEnded?
  }

  predicate AllOk(a: Agent) {
    a.exit == ExitEnded(true) && a.stdin.phase == StdinEnded(true)
    && a.stdout.phase == CopyEnded(true) && a.stderr.phase == CopyEnded(true)
  }

  /** The join waits for all four tasks, and only then looks at their results. */
  function PollJoin(a: Agent, reason: Text): Agent {
    if !AllEnded(a) then a
    else if AllOk(a) then a.(main := Flushing(FLUSH), status := Some(true))
    else Fail(a, reason)
  }

  const FLUSH: SendFuture := SendFuture([], true)

  function PollError(a: Agent, text: Text, send: SendFuture): Agent {
    var t := SendTurn(Open(a.tx), send);
    var a' := a.(tx := TxAfter(t, a.tx), trace := a.trace + Added(Error(text), send, t.future));
    match t.result
    case Some(Ready(_)) => a'.(main := Flushing(FLUSH))
    case _ => a'.(main := SendingError(text, t.future))
  }

  /** The final flush, whose result is ignored, and the close, which begins with a flush whose failure ends it. */
  function PollLastFlush(a: Agent, send: SendFuture): Agent {
    var t := SendTurn(Open(a.tx), send);
    var a' := a.(tx := TxAfter(t, a.tx));
    match (a.main, t.result)
    case (Flushing(_), Some(Ready(_))) => a'.(main := ClosingFlush(FLUSH))
    case (Flushing(_), _) => a'.(main := Flushing(t.future))
    case (_, Some(Ready(Ok(_)))) => a'.(main := ClosingTx(Draining))
    case (_, Some(Ready(Err(_)))) => a'.(main := Finished)
    case _ => a'.(main := ClosingFlush(t.future))
  }

  function PollClosingTx(a: Agent, stage: CloseStage): Agent {
    var c := PollClose(a.tx, stage);
    a.(tx := c.local, main := if c.stage.Returned? then Finished else ClosingTx(c.stage))
  }

  function PollMain(a: Agent, spawn: SpawnResult, reason: Text): Agent {
    match a.main
    case AwaitingExec => PollAwait(a, reason)
    case Spawning => PollSpawn(a, spawn, reason)
    case SendingStarted(pid, send) => PollStarted(a, pid, send, reason)
    case Joining => PollJoin(a, reason)
    case SendingError(text, send) => PollError(a, text, send)
    case Flushing(send) => PollLastFlush(a, send)
    case ClosingFlush(send) => PollLastFlush(a, send)
    case ClosingTx(stage) => PollClosingTx(a, stage)
    case Finished => a
  }

  /** A poll of a task, which runs only while the tasks are being joined. */
  function PollTask(a: Agent, e: AgentEvent): Agent {
    match e
    case MainPoll(_, _) => a
    case KillPoll =>
      var k := PollKill(a.rx, a.exit);
      a.(rx := k.rx, exit := k.phase, signals := a.signals + k.signals)
    case ExitPoll(result) =>
      var x := PollExit(a.tx, a.exit, result);
      a.(tx := x.tx, exit := x.phase, trace := a.trace + x.added)
    case StdinPoll =>
      var s := PollStdin(a.tx, a.rx, a.stdin);
      a.(tx := s.tx, rx := s.rx, stdin := s.task, trace := a.trace + s.added)
    case StdoutPoll =>
      var o := PollOutput(a.tx, a.stdout, a.lineBuffered);
      a.(tx := o.tx, stdout := o.task, trace := a.trace + o.added)
    case StderrPoll =>
      var o := PollOutput(a.tx, a.stderr, a.lineBuffered);
      a.(tx := o.tx, stderr := o.task, trace := a.trace + o.added)
    case StdoutHostPoll(closes) =>
      var h := PollHostClose(a.rx, a.stdout, closes);
      a.(rx := h.rx, stdout := h.task)
    case StderrHostPoll(closes) =>
      var h := PollHostClose(a.rx, a.stderr, closes);
      a.(rx := h.rx, stderr := h.task)
  }

  function StepAgent(a: Agent, e: AgentEvent): Agent {
    if e.MainPoll? then PollMain(a, e.spawn, e.reason)
    else if a.main.Joining? then PollTask(a, e)
    else a
  }

  function RunAgent(a: Agent, events: seq<AgentEvent>): Agent {
    Run(StepAgent, a, events)
  }

  /** The agent's surroundings: what the host sends and how it is read, how the connection takes writes, what the child
      writes to its two pipes and how they are read, and how its stdin takes writes. */
  datatype World = World(
    host: Source, writes: seq<WriteAnswer>, flushes: seq<FlushAnswer>, shutdowns: seq<FlushAnswer>,
    childIn: seq<WriteAnswer>, childOut: Source, childErr: Source)

  function NewOutput(stream: Stream, source: Source): OutputTask {
    OutputTask(stream, Splitting(source, []), Splitting(source, []), Copying)
  }

  function InitAgent(w: World): Agent {
    Agent(
      AwaitingExec, None,
      TxSteps.Local(Sink(w.writes, w.flushes, w.shutdowns, [], 0), [], [], 0),
      RxSteps.Local(Reading(w.host, []), []),
      true, Waiting,
      StdinTask(Sink(w.childIn, [], [], [], 0), [], Receiving),
      NewOutput(StdoutStream, w.childOut), NewOutput(StderrStream, w.childErr),
      [], [])
  }
}
