/** Whole runs of the agent, whatever the order of its steps and whatever its surroundings do. */
module AgentRun {
  import opened Basics
  import opened Connection
  import opened Messages
  import opened LineReader
  import opened TxSteps
  import opened Framing
  import RxSteps
  import opened EndToEnd
  import opened AgentSteps
  import opened AgentTrace

  // ---------------------------------------------------------------------------------------------------------------
  // The language of traces
  // ---------------------------------------------------------------------------------------------------------------

  /** What the tasks send. */
  predicate TaskMessage(m: Message) {
    m == Stdin(Closed) || m.Stdout? || m.Stderr? || m.Exited?
  }

  /** `started` first, and then what the tasks send. */
  predicate Kinds(trace: seq<Message>) {
    trace != [] && trace[0].Started? && forall k | 1 <= k < |trace| :: TaskMessage(trace[k])
  }

  predicate OutputShape(v: seq<Stdio>) {
    AllData(v) || EndsClosed(v)
  }

  /** Nothing, or `started` followed by a shuffle of stdout data and then perhaps its closed, stderr data and then
      perhaps its closed, at most one stdin closed, and at most one exited. */
  predicate RunShape(trace: seq<Message>) {
    || trace == []
    || (&& Kinds(trace)
        && OutputShape(OfStream(trace, StdoutStream))
        && OutputShape(OfStream(trace, StderrStream))
        && (OfStream(trace, StdinStream) == [] || OfStream(trace, StdinStream) == [Closed])
        && |ExitsIn(trace)| <= 1)
  }

  /** And then perhaps one error, with nothing after it. */
  predicate InLanguage(trace: seq<Message>) {
    || RunShape(trace)
    || (trace != [] && trace[|trace| - 1].Error? && RunShape(trace[..|trace| - 1]))
  }

  /** The trace of a run that succeeded: each stream closed, the exit reported, no error. */
  predicate Complete(trace: seq<Message>) {
    && Kinds(trace)
    && EndsClosed(OfStream(trace, StdoutStream))
    && EndsClosed(OfStream(trace, StderrStream))
    && OfStream(trace, StdinStream) == [Closed]
    && |ExitsIn(trace)| == 1
  }

  // ---------------------------------------------------------------------------------------------------------------
  // The invariant
  // ---------------------------------------------------------------------------------------------------------------

  ghost predicate TasksInv(a: Agent) {
    && a.stdout.stream == StdoutStream && a.stderr.stream == StderrStream
    && OutputInv(a.stdout, a.lineBuffered, a.trace, a.tx.settled)
    && OutputInv(a.stderr, a.lineBuffered, a.trace, a.tx.settled)
    && StdinInv(a.stdin.phase, a.trace, a.tx.settled)
    && ExitInv(a.exit, a.trace, a.tx.settled)
  }

  /** What the host sends on stdin, and its kill signals, malformed frames left out. */
  function StdinValues(w: World): seq<Option<Bytes>> {
    RxSteps.Wanted(Heard(w.host.unread), StdinFilter())
  }

  function Kills(w: World): seq<i32> {
    RxSteps.Wanted(Heard(w.host.unread), KillFromMessage)
  }

  function KillsLeft(rx: RxSteps.Local): seq<i32> {
    RxSteps.Wanted(RxSteps.Log(rx, Decode), KillFromMessage)
  }

  ghost predicate WorldInv(a: Agent, w: World) {
    && a.stdout.start == Splitting(w.childOut, [])
    && a.stderr.start == Splitting(w.childErr, [])
    && ForwardInv(a.stdin, a.rx, StdinValues(w))
    && a.signals + KillsLeft(a.rx) == Kills(w)
  }

  predicate Pristine(a: Agent) {
    && a.exit == Waiting
    && a.stdout.phase == Copying && a.stdout.splitting == a.stdout.start
    && a.stderr.phase == Copying && a.stderr.splitting == a.stderr.start
  }

  predicate RunKinds(trace: seq<Message>) {
    trace == [] || Kinds(trace)
  }

  predicate EndKinds(trace: seq<Message>) {
    RunKinds(trace) || (trace != [] && trace[|trace| - 1].Error? && RunKinds(trace[..|trace| - 1]))
  }

  ghost predicate OverInv(a: Agent) {
    && a.status.Some? && EndKinds(a.trace)
    && (a.status == Some(true) ==> Kinds(a.trace) && AllOk(a) && a.tx.settled == |a.trace|)
  }

  ghost predicate MainInv(a: Agent) {
    match a.main
    case AwaitingExec => a.status == None && a.trace == [] && Pristine(a)
    case Spawning => a.status == None && a.trace == [] && Pristine(a)
    case SendingStarted(pid, send) =>
      && a.status == None && Pristine(a) && ForMessage(send, Started(pid), false)
      && a.trace == if Untaken(send) then [] else [Started(pid)]
    case Joining => a.status == None && Kinds(a.trace) && (AllOk(a) ==> a.tx.settled == |a.trace|)
    case SendingError(text, send) =>
      a.status == Some(false) && ForMessage(send, Error(text), false) && ErrorSent(a.trace, text, send)
    case Flushing(send) => OverInv(a) && send == FLUSH
    case ClosingFlush(send) => OverInv(a) && send == FLUSH
    case ClosingTx(stage) => OverInv(a) && (stage != Draining && !stage.lost ==> a.tx.transmitting == [])
    case Finished => OverInv(a)
  }

  ghost predicate Inv(a: Agent, w: World) {
    Linked(a.tx, a.trace) && TasksInv(a) && WorldInv(a, w) && MainInv(a)
  }

  // ---------------------------------------------------------------------------------------------------------------
  // What a longer trace and a shorter log leave alone
  // ---------------------------------------------------------------------------------------------------------------

  predicate Concerns(added: seq<Message>, stream: Stream) {
    added != [] && StdioFromMessage(stream, added[0]).Ok?
  }

  lemma StreamFrame(trace: seq<Message>, added: seq<Message>, stream: Stream)
    requires |added| <= 1 && !Concerns(added, stream)
    ensures OfStream(trace + added, stream) == OfStream(trace, stream)
  {
    if added == [] {
      assert trace + added == trace;
    } else {
      assert added == [added[0]];
      TraceSnoc(trace, added[0], stream);
    }
  }

  lemma ExitsFrame(trace: seq<Message>, added: seq<Message>)
    requires |added| <= 1 && (added != [] ==> !added[0].Exited?)
    ensures ExitsIn(trace + added) == ExitsIn(trace)
  {
    if added == [] {
      assert trace + added == trace;
    } else {
      assert added == [added[0]];
      TraceSnoc(trace, added[0], StdinStream);
    }
  }

  lemma SettledInTrace(tx: Local, trace: seq<Message>)
    requires Linked(tx, trace)
    ensures tx.settled <= |trace|
  {
    hide Encode;
    assert |Bodies(trace)| == |trace|;
  }

  /** A step that adds a message keeps the invariants of the tasks that the message does not concern. */
  lemma TraceGrows(a: Agent, tx: Local, added: seq<Message>)
    requires TasksInv(a) && Linked(a.tx, a.trace)
    requires Linked(tx, a.trace + added) && Extends(a.tx, tx) && |added| <= 1
    ensures !Concerns(added, StdoutStream) ==> OutputInv(a.stdout, a.lineBuffered, a.trace + added, tx.settled)
    ensures !Concerns(added, StderrStream) ==> OutputInv(a.stderr, a.lineBuffered, a.trace + added, tx.settled)
    ensures !Concerns(added, StdinStream) ==> StdinInv(a.stdin.phase, a.trace + added, tx.settled)
    ensures (added != [] ==> !added[0].Exited?) ==> ExitInv(a.exit, a.trace + added, tx.settled)
  {
    hide Linked, Ledger, OutputInv, StdinInv, ExitInv, OfStream, ExitsIn;
    SettledInTrace(a.tx, a.trace);
    SettledInTrace(tx, a.trace + added);
    var trace' := a.trace + added;
    if !Concerns(added, StdoutStream) {
      StreamFrame(a.trace, added, StdoutStream);
      OutputFrame(a.stdout, a.lineBuffered, a.trace, a.tx.settled, trace', tx.settled);
    }
    if !Concerns(added, StderrStream) {
      StreamFrame(a.trace, added, StderrStream);
      OutputFrame(a.stderr, a.lineBuffered, a.trace, a.tx.settled, trace', tx.settled);
    }
    if !Concerns(added, StdinStream) {
      StreamFrame(a.trace, added, StdinStream);
      StdinFrame(a.stdin.phase, a.trace, a.tx.settled, trace', tx.settled);
    }
    if added != [] ==> !added[0].Exited? {
      ExitsFrame(a.trace, added);
      ExitFrame(a.exit, a.trace, a.tx.settled, trace', tx.settled);
    }
  }

  /** A receive by somebody else leaves the stdin values and the kills where they are. */
  lemma StdinSpared<M>(rx: RxSteps.Local, from: Filter<M>)
    requires GivesBack(from) && Disjoint(from, StdinFilter())
    ensures StdinLeft(RxSteps.PollRecv(rx, from, Decode).local) == StdinLeft(rx)
  {
    RxSteps.RecvSparesOthers(rx, from, StdinFilter(), Decode);
  }

  lemma KillsSpared<M>(rx: RxSteps.Local, from: Filter<M>)
    requires GivesBack(from) && Disjoint(from, KillFromMessage)
    ensures KillsLeft(RxSteps.PollRecv(rx, from, Decode).local) == KillsLeft(rx)
  {
    RxSteps.RecvSparesOthers(rx, from, KillFromMessage, Decode);
  }

  lemma Symmetric<M, N>(f: Filter<M>, g: Filter<N>)
    requires Disjoint(f, g)
    ensures Disjoint(g, f)
  {
  }

  // ---------------------------------------------------------------------------------------------------------------
  // The tasks
  // ---------------------------------------------------------------------------------------------------------------

  lemma KindsGrow(trace: seq<Message>, added: seq<Message>)
    requires Kinds(trace) && |added| <= 1 && (added != [] ==> TaskMessage(added[0]))
    ensures Kinds(trace + added)
  {
  }

  lemma StdoutStepKeeps(a: Agent, w: World)
    requires Inv(a, w) && a.main == Joining
    ensures Inv(PollTask(a, StdoutPoll), w)
  {
    hide Linked, Extends, OutputInv, StdinInv, ExitInv, PollOutput, ForwardInv, KillsLeft, StdinValues, Kills;
    var o := PollOutput(a.tx, a.stdout, a.lineBuffered);
    OutputKeeps(a.tx, a.stdout, a.lineBuffered, a.trace);
    TraceGrows(a, o.tx, o.added);
    KindsGrow(a.trace, o.added);
    assert a.trace + [] == a.trace;
  }

  lemma StderrStepKeeps(a: Agent, w: World)
    requires Inv(a, w) && a.main == Joining
    ensures Inv(PollTask(a, StderrPoll), w)
  {
    hide Linked, Extends, OutputInv, StdinInv, ExitInv, PollOutput, ForwardInv, KillsLeft, StdinValues, Kills;
    var o := PollOutput(a.tx, a.stderr, a.lineBuffered);
    OutputKeeps(a.tx, a.stderr, a.lineBuffered, a.trace);
    TraceGrows(a, o.tx, o.added);
    KindsGrow(a.trace, o.added);
    assert a.trace + [] == a.trace;
  }

  lemma ExitStepKeeps(a: Agent, w: World, result: WaitResult)
    requires Inv(a, w) && a.main == Joining
    ensures Inv(PollTask(a, ExitPoll(result)), w)
  {
    hide Linked, Extends, OutputInv, StdinInv, ExitInv, PollExit, ForwardInv, KillsLeft, StdinValues, Kills;
    var x := PollExit(a.tx, a.exit, result);
    ExitKeeps(a.tx, a.exit, result, a.trace);
    TraceGrows(a, x.tx, x.added);
    KindsGrow(a.trace, x.added);
    assert a.trace + [] == a.trace;
  }

  /** The stdin task takes no kill. */
  lemma StdinStepSparesKills(a: Agent)
    ensures KillsLeft(PollStdin(a.tx, a.rx, a.stdin).rx) == KillsLeft(a.rx)
  {
    hide RxSteps.PollRecv, KillsLeft, SendTurn, Transmit, StdinFilter, SendOne, DataFromMessage, Decode;
    AgentFilters();
    KillsSpared(a.rx, StdinFilter());
  }

  lemma StdinStepKeeps(a: Agent, w: World)
    requires Inv(a, w) && a.main == Joining
    ensures Inv(PollTask(a, StdinPoll), w)
  {
    hide Linked, Extends, OutputInv, StdinInv, ExitInv, PollStdin, ForwardInv, KillsLeft, StdinValues, Kills;
    var s := PollStdin(a.tx, a.rx, a.stdin);
    StdinKeeps(a.tx, a.rx, a.stdin, a.trace);
    ForwardKeeps(a.tx, a.rx, a.stdin, StdinValues(w));
    StdinStepSparesKills(a);
    TraceGrows(a, s.tx, s.added);
    KindsGrow(a.trace, s.added);
    assert a.trace + [] == a.trace;
  }

  /** A receive for stdin that takes nothing, or by another, forwards nothing. */
  lemma ForwardFrame(task: StdinTask, rx: RxSteps.Local, rx': RxSteps.Local, all: seq<Option<Bytes>>)
    requires ForwardInv(task, rx, all) && StdinLeft(rx') == StdinLeft(rx)
    ensures ForwardInv(task, rx', all)
  {
  }

  /** A poll for kills hands out the first of them, and leaves stdin alone. */
  lemma KillPollTakes(rx: RxSteps.Local, phase: ExitPhase)
    ensures var k := PollKill(rx, phase);
            && k.signals + KillsLeft(k.rx) == KillsLeft(rx)
            && StdinLeft(k.rx) == StdinLeft(rx)
  {
    hide RxSteps.PollRecv, RxSteps.Wanted, RxSteps.Log, StdinFilter, Decode;
    AgentFilters();
    StdinSpared(rx, KillFromMessage);
    RxSteps.RecvTakesOwn(rx, KillFromMessage, Decode);
    assert [] + KillsLeft(rx) == KillsLeft(rx);
  }

  lemma KillPollPhase(rx: RxSteps.Local, phase: ExitPhase, trace: seq<Message>, settled: nat)
    requires ExitInv(phase, trace, settled)
    ensures ExitInv(PollKill(rx, phase).phase, trace, settled)
    ensures PollKill(rx, phase).phase == ExitEnded(true) ==> phase == ExitEnded(true)
  {
    hide RxSteps.PollRecv, ExitsIn;
  }

  lemma KillStepKeeps(a: Agent, w: World)
    requires Inv(a, w) && a.main == Joining
    ensures Inv(PollTask(a, KillPoll), w)
  {
    hide Linked, OutputInv, StdinInv, ExitInv, PollKill, ForwardInv, KillsLeft, StdinLeft, StdinValues, Kills;
    KillPollTakes(a.rx, a.exit);
    KillPollPhase(a.rx, a.exit, a.trace, a.tx.settled);
    var k := PollKill(a.rx, a.exit);
    ForwardFrame(a.stdin, a.rx, k.rx, StdinValues(w));
    assert (a.signals + k.signals) + KillsLeft(k.rx) == a.signals + (k.signals + KillsLeft(k.rx));
  }

  lemma HostStepSpares(rx: RxSteps.Local, task: OutputTask, closes: bool)
    requires task.stream != StdinStream
    ensures StdinLeft(PollHostClose(rx, task, closes).rx) == StdinLeft(rx)
    ensures KillsLeft(PollHostClose(rx, task, closes).rx) == KillsLeft(rx)
  {
    AgentFilters();
    var from := OutputFilter(task.stream);
    assert GivesBack(from) && Disjoint(KillFromMessage, from) && Disjoint(StdinFilter(), from);
    hide RxSteps.PollRecv, KillsLeft, StdinLeft, StdinFilter, OutputFilter;
    Symmetric(KillFromMessage, from);
    Symmetric(StdinFilter(), from);
    StdinSpared(rx, from);
    KillsSpared(rx, from);
  }

  lemma StdoutHostStepKeeps(a: Agent, w: World, closes: bool)
    requires Inv(a, w) && a.main == Joining
    ensures Inv(PollTask(a, StdoutHostPoll(closes)), w)
  {
    hide Linked, OutputInv, StdinInv, ExitInv, PollHostClose, ForwardInv, KillsLeft, StdinValues, Kills, StdinLeft;
    HostCloseKeeps(a.rx, a.stdout, closes, a.lineBuffered, a.trace, a.tx.settled);
    HostStepSpares(a.rx, a.stdout, closes);
    ForwardFrame(a.stdin, a.rx, PollHostClose(a.rx, a.stdout, closes).rx, StdinValues(w));
  }

  lemma StderrHostStepKeeps(a: Agent, w: World, closes: bool)
    requires Inv(a, w) && a.main == Joining
    ensures Inv(PollTask(a, StderrHostPoll(closes)), w)
  {
    hide Linked, OutputInv, StdinInv, ExitInv, PollHostClose, ForwardInv, KillsLeft, StdinValues, Kills, StdinLeft;
    HostCloseKeeps(a.rx, a.stderr, closes, a.lineBuffered, a.trace, a.tx.settled);
    HostStepSpares(a.rx, a.stderr, closes);
    ForwardFrame(a.stdin, a.rx, PollHostClose(a.rx, a.stderr, closes).rx, StdinValues(w));
  }

  lemma TaskStepKeeps(a: Agent, w: World, e: AgentEvent)
    requires Inv(a, w) && a.main == Joining
    ensures Inv(PollTask(a, e), w)
  {
    hide Inv, PollKill, PollExit, PollStdin, PollOutput, PollHostClose;
    match e
    case MainPoll(_, _) =>
    case KillPoll => KillStepKeeps(a, w);
    case ExitPoll(result) => ExitStepKeeps(a, w, result);
    case StdinPoll => StdinStepKeeps(a, w);
    case StdoutPoll => StdoutStepKeeps(a, w);
    case StderrPoll => StderrStepKeeps(a, w);
    case StdoutHostPoll(closes) => StdoutHostStepKeeps(a, w, closes);
    case StderrHostPoll(closes) => StderrHostStepKeeps(a, w, closes);
  }

  // ---------------------------------------------------------------------------------------------------------------
  // The main sequence
  // ---------------------------------------------------------------------------------------------------------------

  lemma FailKeeps(a: Agent, w: World, reason: Json.Text)
    requires Linked(a.tx, a.trace) && TasksInv(a) && WorldInv(a, w) && RunKinds(a.trace)
    ensures Inv(Fail(a, reason), w)
  {
    hide Linked, OutputInv, StdinInv, ExitInv, ForwardInv, KillsLeft, StdinValues, Kills, SendOne, ForMessage;
    SendOneIsForMessage(Error(reason), false);
  }

  /** Before anything was read, the mode of reading does not matter. */
  lemma PristineInAnyMode(task: OutputTask, lineBuffered: bool, other: bool, settled: nat)
    requires OutputInv(task, lineBuffered, [], settled)
    requires task.phase == Copying && task.splitting == task.start
    ensures OutputInv(task, other, [], settled)
  {
    LeadsNowhere(task.start, task.start, other);
  }

  lemma AwaitKeeps(a: Agent, w: World, reason: Json.Text)
    requires Inv(a, w) && a.main == AwaitingExec
    ensures Inv(PollAwait(a, reason), w)
  {
    AgentFilters();
    hide Linked, OutputInv, StdinInv, ExitInv, RxSteps.PollRecv, ForwardInv, KillsLeft, StdinValues, Kills,
      StdinLeft, StdinFilter, Fail;
    var p := RxSteps.PollRecv(a.rx, ExecFromMessage, Decode);
    StdinSpared(a.rx, ExecFromMessage);
    KillsSpared(a.rx, ExecFromMessage);
    ForwardFrame(a.stdin, a.rx, p.local, StdinValues(w));
    var a' := a.(rx := p.local);
    assert WorldInv(a', w);
    if p.answer.Ready? && p.answer.value.Ok? && p.answer.value.value.Some? {
      var mode := LineBuffered(p.answer.value.value.value);
      PristineInAnyMode(a.stdout, a.lineBuffered, mode, a.tx.settled);
      PristineInAnyMode(a.stderr, a.lineBuffered, mode, a.tx.settled);
    } else if p.answer.Ready? {
      FailKeeps(a', w, reason);
    }
  }

  lemma SpawnKeeps(a: Agent, w: World, spawn: SpawnResult, reason: Json.Text)
    requires Inv(a, w) && a.main == Spawning
    ensures Inv(PollSpawn(a, spawn, reason), w)
  {
    hide Linked, OutputInv, StdinInv, ExitInv, ForwardInv, KillsLeft, StdinValues, Kills, SendOne, ForMessage, Fail;
    match spawn
    case SpawnPending =>
    case SpawnFails => FailKeeps(a, w, reason);
    case Spawned(pid) => SendOneIsForMessage(Started(pid), false);
  }

  /** A message that is no task's changes no task's view of the trace. */
  lemma ForeignMessage(a: Agent, tx: Local, added: seq<Message>)
    requires TasksInv(a) && Linked(a.tx, a.trace)
    requires Linked(tx, a.trace + added) && Extends(a.tx, tx)
    requires |added| <= 1 && (added != [] ==> added[0].Started? || added[0].Error?)
    ensures TasksInv(a.(tx := tx, trace := a.trace + added))
  {
    hide Linked, Extends, OutputInv, StdinInv, ExitInv;
    TraceGrows(a, tx, added);
  }

  lemma StartedKeeps(a: Agent, w: World, pid: u32, send: SendFuture, reason: Json.Text)
    requires Inv(a, w) && a.main == SendingStarted(pid, send)
    ensures Inv(PollStarted(a, pid, send, reason), w)
  {
    hide Linked, Extends, OutputInv, StdinInv, ExitInv, ForwardInv, KillsLeft, StdinValues, Kills, SendTurn,
      ForMessage, Fail;
    OneTurn(a.tx, send, Started(pid), false, a.trace);
    var t := SendTurn(Open(a.tx), send);
    var added := Added(Started(pid), send, t.future);
    ForeignMessage(a, TxAfter(t, a.tx), added);
    var a' := a.(tx := TxAfter(t, a.tx), trace := a.trace + added);
    assert [] + [Started(pid)] == [Started(pid)] && a.trace + [] == a.trace;
    assert a'.trace == if Untaken(t.future) then [] else [Started(pid)];
    assert RunKinds(a'.trace);
    if t.result.Some? && t.result.value.Ready? && t.result.value.value.Err? {
      FailKeeps(a', w, reason);
    }
  }

  lemma JoinKeeps(a: Agent, w: World, reason: Json.Text)
    requires Inv(a, w) && a.main == Joining
    ensures Inv(PollJoin(a, reason), w)
  {
    hide Linked, OutputInv, StdinInv, ExitInv, ForwardInv, KillsLeft, StdinValues, Kills, Fail;
    FailKeeps(a, w, reason);
  }

  ghost predicate ErrorSent(trace: seq<Message>, text: Json.Text, send: SendFuture) {
    if Untaken(send) then RunKinds(trace)
    else trace != [] && trace[|trace| - 1] == Error(text) && RunKinds(trace[..|trace| - 1])
  }

  lemma ErrorTrace(trace: seq<Message>, text: Json.Text, before: SendFuture, after: SendFuture)
    requires ErrorSent(trace, text, before) && (Untaken(after) ==> Untaken(before))
    ensures var t := trace + Added(Error(text), before, after);
            ErrorSent(t, text, after) && EndKinds(t)
  {
    assert trace + [] == trace;
    assert (trace + [Error(text)])[..|trace|] == trace;
    hide RunKinds;
  }

  lemma ErrorKeeps(a: Agent, w: World, text: Json.Text, send: SendFuture)
    requires Inv(a, w) && a.main == SendingError(text, send)
    ensures Inv(PollError(a, text, send), w)
  {
    hide Linked, Extends, TasksInv, ForwardInv, KillsLeft, StdinValues, Kills, SendTurn, ForMessage, ErrorSent,
      EndKinds,
      Kinds, Untaken;
    OneTurn(a.tx, send, Error(text), false, a.trace);
    var t := SendTurn(Open(a.tx), send);
    ErrorTrace(a.trace, text, send, t.future);
    var tx, added := TxAfter(t, a.tx), Added(Error(text), send, t.future);
    ForeignMessage(a, tx, added);
    TasksIgnoreMain(a.(tx := tx, trace := a.trace + added), PollError(a, text, send));
  }

  lemma FlushTurn(tx: Local, trace: seq<Message>)
    requires Linked(tx, trace)
    ensures var t := SendTurn(Open(tx), FLUSH);
            Linked(TxAfter(t, tx), trace) && Extends(tx, TxAfter(t, tx)) && t.future == FLUSH
  {
    FlushDelivers(tx);
    hide Bodies, Ledger, PollFlush, Wire;
  }

  /** Once the run is over, the connection may move on, but the trace and the tasks do not. */
  lemma OverKeeps(a: Agent, tx: Local)
    requires TasksInv(a) && OverInv(a) && Linked(a.tx, a.trace)
    requires Linked(tx, a.trace) && Extends(a.tx, tx)
    ensures TasksInv(a.(tx := tx)) && OverInv(a.(tx := tx))
  {
    hide Linked, TasksInv, EndKinds, Kinds, Ledger;
    SettledInTrace(tx, a.trace);
    OverTasks(a, tx);
  }

  lemma OverTasks(a: Agent, tx: Local)
    requires TasksInv(a) && Linked(a.tx, a.trace)
    requires Linked(tx, a.trace) && Extends(a.tx, tx)
    ensures TasksInv(a.(tx := tx))
  {
    hide Linked, Extends, TasksInv;
    assert a.trace + [] == a.trace;
    ForeignMessage(a, tx, []);
  }

  lemma TasksIgnoreMain(a: Agent, a': Agent)
    requires TasksInv(a) && a' == a.(main := a'.main)
    ensures TasksInv(a')
  {
  }

  lemma CloseTurn(tx: Local, trace: seq<Message>, stage: CloseStage)
    requires Linked(tx, trace)
    requires stage != Draining && !stage.lost ==> tx.transmitting == []
    ensures var c := PollClose(tx, stage);
            && Linked(c.local, trace) && Extends(tx, c.local)
            && (c.stage != Draining && !c.stage.lost ==> c.local.transmitting == [])
  {
    CloseKeeps(tx, stage);
    hide Bodies, PollClose, Ledger;
  }

  lemma LastFlushKeeps(a: Agent, w: World, send: SendFuture)
    requires Inv(a, w) && (a.main == Flushing(send) || a.main == ClosingFlush(send))
    ensures Inv(PollLastFlush(a, send), w)
  {
    hide Linked, Extends, TasksInv, OverInv, ForwardInv, KillsLeft, StdinValues, Kills, SendTurn;
    FlushTurn(a.tx, a.trace);
    var tx := TxAfter(SendTurn(Open(a.tx), FLUSH), a.tx);
    OverKeeps(a, tx);
    var a' := PollLastFlush(a, send);
    TasksIgnoreMain(a.(tx := tx), a');
    OverIgnoresMain(a.(tx := tx), a');
  }

  lemma OverIgnoresMain(a: Agent, a': Agent)
    requires OverInv(a) && a' == a.(main := a'.main)
    ensures OverInv(a')
  {
  }

  lemma ClosingTxKeeps(a: Agent, w: World, stage: CloseStage)
    requires Inv(a, w) && a.main == ClosingTx(stage)
    ensures Inv(PollClosingTx(a, stage), w)
  {
    hide Linked, Extends, TasksInv, OverInv, ForwardInv, KillsLeft, StdinValues, Kills, PollClose;
    CloseTurn(a.tx, a.trace, stage);
    var tx := PollClose(a.tx, stage).local;
    OverKeeps(a, tx);
    var a' := PollClosingTx(a, stage);
    TasksIgnoreMain(a.(tx := tx), a');
    OverIgnoresMain(a.(tx := tx), a');
  }

  lemma MainStepKeeps(a: Agent, w: World, spawn: SpawnResult, reason: Json.Text)
    requires Inv(a, w)
    ensures Inv(PollMain(a, spawn, reason), w)
  {
    hide Inv, PollAwait, PollSpawn, PollStarted, PollJoin, PollError, PollLastFlush, PollClosingTx;
    match a.main
    case AwaitingExec => AwaitKeeps(a, w, reason);
    case Spawning => SpawnKeeps(a, w, spawn, reason);
    case SendingStarted(pid, send) => StartedKeeps(a, w, pid, send, reason);
    case Joining => JoinKeeps(a, w, reason);
    case SendingError(text, send) => ErrorKeeps(a, w, text, send);
    case Flushing(send) => LastFlushKeeps(a, w, send);
    case ClosingFlush(send) => LastFlushKeeps(a, w, send);
    case ClosingTx(stage) => ClosingTxKeeps(a, w, stage);
    case Finished =>
  }

  lemma StepKeeps(a: Agent, w: World, e: AgentEvent)
    requires Inv(a, w)
    ensures Inv(StepAgent(a, e), w)
  {
    hide Inv, PollTask, PollMain;
    if e.MainPoll? {
      MainStepKeeps(a, w, e.spawn, e.reason);
    } else if a.main.Joining? {
      TaskStepKeeps(a, w, e);
    }
  }

  lemma InitWorld(w: World)
    ensures WorldInv(InitAgent(w), w)
  {
    hide Decode, Encode, Frames, RxSteps.Wanted;
    assert [] + w.host.unread == w.host.unread;
    assert RxSteps.Log(InitAgent(w).rx, Decode) == Heard(w.host.unread);
    hide Heard;
    assert InitAgent(w).stdin.had + StdinValues(w) == StdinValues(w);
    assert InitAgent(w).signals + Kills(w) == Kills(w);
  }

  lemma InitKeeps(w: World)
    ensures Inv(InitAgent(w), w)
  {
    hide Encode, WorldInv;
    var a := InitAgent(w);
    InitWorld(w);
    LeadsNowhere(a.stdout.start, a.stdout.start, true);
    LeadsNowhere(a.stderr.start, a.stderr.start, true);
    hide Leads;
  }

  lemma {:induction false} RunKeeps(a: Agent, w: World, events: seq<AgentEvent>)
    requires Inv(a, w)
    ensures Inv(RunAgent(a, events), w)
  {
    hide Inv, StepAgent;
    if events != [] {
      var n := |events| - 1;
      RunKeeps(a, w, events[..n]);
      StepKeeps(RunAgent(a, events[..n]), w, events[n]);
    }
  }

  lemma Reachable(w: World, events: seq<AgentEvent>)
    ensures Inv(RunAgent(InitAgent(w), events), w)
  {
    hide Inv;
    InitKeeps(w);
    RunKeeps(InitAgent(w), w, events);
  }
}
