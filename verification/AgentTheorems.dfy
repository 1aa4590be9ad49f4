/** What whole runs of the agent guarantee. */
module AgentTheorems {
  import opened Basics
  import opened Connection
  import opened Source
  import opened Messages
  import opened LineReader
  import opened TxSteps
  import RxSteps
  import opened EndToEnd
  import opened AgentSteps
  import opened AgentTrace
  import opened AgentRun

  // ---------------------------------------------------------------------------------------------------------------
  // The trace
  // ---------------------------------------------------------------------------------------------------------------

  lemma StdinShape(phase: StdinPhase, trace: seq<Message>, settled: nat)
    requires StdinInv(phase, trace, settled)
    ensures OfStream(trace, StdinStream) == [] || OfStream(trace, StdinStream) == [Closed]
  {
  }

  lemma ExitShape(phase: ExitPhase, trace: seq<Message>, settled: nat)
    requires ExitInv(phase, trace, settled)
    ensures |ExitsIn(trace)| <= 1
  {
  }

  lemma TasksShape(a: Agent)
    requires TasksInv(a)
    ensures OutputShape(OfStream(a.trace, StdoutStream)) && OutputShape(OfStream(a.trace, StderrStream))
    ensures OfStream(a.trace, StdinStream) == [] || OfStream(a.trace, StdinStream) == [Closed]
    ensures |ExitsIn(a.trace)| <= 1
  {
    OutputInvSafe(a.stdout, a.lineBuffered, a.trace, a.tx.settled);
    OutputInvSafe(a.stderr, a.lineBuffered, a.trace, a.tx.settled);
    hide OutputInv, StdinInv, ExitInv, OfStream, ExitsIn;
    StdinShape(a.stdin.phase, a.trace, a.tx.settled);
    ExitShape(a.exit, a.trace, a.tx.settled);
  }

  /** An error at the end is on no stream. */
  lemma BeforeError(trace: seq<Message>, stream: Stream)
    requires trace != [] && trace[|trace| - 1].Error?
    ensures OfStream(trace, stream) == OfStream(trace[..|trace| - 1], stream)
    ensures ExitsIn(trace) == ExitsIn(trace[..|trace| - 1])
  {
    var init := trace[..|trace| - 1];
    assert trace == init + [trace[|trace| - 1]];
    StreamFrame(init, [trace[|trace| - 1]], stream);
    ExitsFrame(init, [trace[|trace| - 1]]);
  }

  lemma ShapeFromKinds(a: Agent)
    requires TasksInv(a) && EndKinds(a.trace)
    ensures InLanguage(a.trace)
  {
    hide OfStream, ExitsIn, Kinds, OutputShape, TasksInv;
    TasksShape(a);
    if !RunKinds(a.trace) {
      BeforeError(a.trace, StdoutStream);
      BeforeError(a.trace, StderrStream);
      BeforeError(a.trace, StdinStream);
    }
  }

  lemma MainInvEndKinds(a: Agent)
    requires MainInv(a)
    ensures EndKinds(a.trace)
  {
  }

  /** In every reachable state the accepted messages form a trace of the language: nothing, or `started` and a shuffle of
      what the tasks send, and then at most one error. */
  lemma TraceLanguage(w: World, events: seq<AgentEvent>)
    ensures InLanguage(RunAgent(InitAgent(w), events).trace)
  {
    Reachable(w, events);
    var a := RunAgent(InitAgent(w), events);
    hide TasksInv, MainInv, InLanguage, RunAgent, WorldInv, Linked;
    MainInvEndKinds(a);
    ShapeFromKinds(a);
  }

  lemma StatusMeansOver(a: Agent)
    requires MainInv(a) && a.status == Some(true)
    ensures Kinds(a.trace) && AllOk(a) && a.tx.settled == |a.trace|
  {
  }

  lemma OkTasksComplete(a: Agent)
    requires TasksInv(a) && AllOk(a) && Kinds(a.trace)
    ensures Complete(a.trace)
  {
    hide OfStream, ExitsIn, Kinds, OutputSafe;
  }

  /** The agent's connection carries a prefix of the wire form of its trace. */
  lemma WrittenIsTrace(w: World, events: seq<AgentEvent>)
    ensures var a := RunAgent(InitAgent(w), events);
            a.tx.sink.written <= Wire(Bodies(a.trace))
  {
    Reachable(w, events);
    hide RunAgent, TasksInv, MainInv, WorldInv, Wire, Bodies;
  }

  lemma SettledIsWritten(tx: Local, trace: seq<Message>)
    requires Linked(tx, trace) && tx.settled == |trace|
    ensures tx.sink.written == Wire(Bodies(trace)) && tx.sink.flushed == |tx.sink.written|
  {
    hide Encode;
    assert |Bodies(trace)| == |trace|;
    assert tx.accepted[..tx.settled] == tx.accepted;
    hide Wire, Bodies;
    assert tx.transmitting == [];
  }

  /** A run whose result is Ok has sent the complete trace, and every byte of it is written and flushed. */
  lemma SuccessfulRun(w: World, events: seq<AgentEvent>)
    requires RunAgent(InitAgent(w), events).status == Some(true)
    ensures var a := RunAgent(InitAgent(w), events);
            && Complete(a.trace)
            && a.tx.sink.written == Wire(Bodies(a.trace)) && a.tx.sink.flushed == |a.tx.sink.written|
  {
    Reachable(w, events);
    var a := RunAgent(InitAgent(w), events);
    hide TasksInv, MainInv, Complete, RunAgent, WorldInv, Linked, Kinds, AllOk, Wire, Bodies;
    StatusMeansOver(a);
    OkTasksComplete(a);
    SettledIsWritten(a.tx, a.trace);
  }

  // ---------------------------------------------------------------------------------------------------------------
  // The output of the child
  // ---------------------------------------------------------------------------------------------------------------

  /** The values of an output stream account for what the child writes: their data concatenate to a prefix of it, and to
      all of it as soon as there is a closed; in line mode they are its lines. */
  predicate Preserves(v: seq<Stdio>, output: Bytes, lineBuffered: bool) {
    && OutputShape(v)
    && Concat(Payloads(v)) <= output
    && (EndsClosed(v) ==> Concat(Payloads(v)) == output)
    && (lineBuffered ==> Payloads(v) <= Lines(output) && (EndsClosed(v) ==> Payloads(v) == Lines(output)))
  }

  lemma SafePreserves(v: seq<Stdio>, source: Source, lineBuffered: bool)
    requires OutputSafe(v, Splitting(source, []), lineBuffered)
    ensures Preserves(v, source.unread, lineBuffered)
  {
    assert Ahead(Splitting(source, [])) == source.unread;
  }

  /** In every reachable state, whatever the other tasks do, the accepted stdout messages preserve the child's output, and
      so do the stderr messages. */
  lemma OutputPreserved(w: World, events: seq<AgentEvent>)
    ensures var a := RunAgent(InitAgent(w), events);
            && Preserves(OfStream(a.trace, StdoutStream), w.childOut.unread, a.lineBuffered)
            && Preserves(OfStream(a.trace, StderrStream), w.childErr.unread, a.lineBuffered)
  {
    Reachable(w, events);
    var a := RunAgent(InitAgent(w), events);
    hide RunAgent, MainInv, Linked, OutputInv, StdinInv, ExitInv, OutputSafe, OfStream, ForwardInv, KillsLeft,
      StdinValues, Kills, Preserves;
    OutputInvSafe(a.stdout, a.lineBuffered, a.trace, a.tx.settled);
    OutputInvSafe(a.stderr, a.lineBuffered, a.trace, a.tx.settled);
    SafePreserves(OfStream(a.trace, StdoutStream), w.childOut, a.lineBuffered);
    SafePreserves(OfStream(a.trace, StderrStream), w.childErr, a.lineBuffered);
  }

  // ---------------------------------------------------------------------------------------------------------------
  // Stdin, signals, the exit
  // ---------------------------------------------------------------------------------------------------------------

  /** What was written to the child's stdin is at all times a prefix of the data that the host sends on stdin before its
      first closed, wherever in the stream they are, before `exec` or among malformed frames; and it is all of it when
      the task goes on to say that stdin is closed. */
  lemma StdinForwarded(w: World, events: seq<AgentEvent>)
    ensures var a := RunAgent(InitAgent(w), events);
            && a.stdin.child.written <= Target(StdinValues(w))
            && (a.stdin.phase.SendingStdinClosed? || a.stdin.phase == StdinEnded(true) ==>
                  a.stdin.child.written == Target(StdinValues(w)))
  {
    Reachable(w, events);
    var a := RunAgent(InitAgent(w), events);
    hide RunAgent, TasksInv, MainInv, Linked, StdinLeft, StdinValues, KillsLeft, Kills;
    ForwardedSoFar(a.stdin, a.rx, StdinValues(w));
  }

  lemma ForwardedSoFar(task: StdinTask, rx: RxSteps.Local, all: seq<Option<Bytes>>)
    requires ForwardInv(task, rx, all)
    ensures task.child.written <= Target(all)
  {
    hide StdinLeft;
    if task.phase.Receiving? || task.phase.Writing? {
      TargetAppend(task.had, StdinLeft(rx));
    }
  }

  /** The signals delivered are the first of those that the host sends, in order. */
  lemma SignalsForwarded(w: World, events: seq<AgentEvent>)
    ensures RunAgent(InitAgent(w), events).signals <= Kills(w)
  {
    Reachable(w, events);
    hide RunAgent, TasksInv, MainInv, Linked, ForwardInv, KillsLeft, Kills;
  }

  /** When the exit task has ended well, the exit status is on the connection and flushed, whatever the other tasks are
      still doing: it is among the first messages, whose wire form is written and flushed. */
  lemma ExitDelivered(w: World, events: seq<AgentEvent>) returns (status: i32)
    requires RunAgent(InitAgent(w), events).exit == ExitEnded(true)
    ensures var a := RunAgent(InitAgent(w), events);
            && a.tx.settled <= |a.trace|
            && Exited(status) in a.trace[..a.tx.settled]
            && Wire(Bodies(a.trace[..a.tx.settled])) <= a.tx.sink.written
            && |Wire(Bodies(a.trace[..a.tx.settled]))| <= a.tx.sink.flushed
  {
    Reachable(w, events);
    var a := RunAgent(InitAgent(w), events);
    hide RunAgent, MainInv, WorldInv, OutputInv, StdinInv, ExitsIn, Wire, Bodies, Ledger;
    status := ExitsIn(a.trace)[0];
    SettledWire(a.tx, a.trace);
  }

  lemma SettledWire(tx: Local, trace: seq<Message>)
    requires Linked(tx, trace)
    ensures tx.settled <= |trace|
    ensures Wire(Bodies(trace[..tx.settled])) <= tx.sink.written
    ensures |Wire(Bodies(trace[..tx.settled]))| <= tx.sink.flushed
  {
    SettledInTrace(tx, trace);
    hide Encode;
    var k := tx.settled;
    assert tx.accepted[..k] == Bodies(trace[..k]);
    WirePrefix(tx.accepted, k);
    hide Bodies, Wire;
  }

  // ---------------------------------------------------------------------------------------------------------------
  // Where the numbers come from
  // ---------------------------------------------------------------------------------------------------------------

  /** A process identifier is one that a spawn has given, an exit status one that a wait has given, and an error the text of
      one that main has met. */
  ghost predicate Caused(m: Message, events: seq<AgentEvent>) {
    match m
    case Started(pid) => exists reason :: MainPoll(Spawned(pid), reason) in events
    case Exited(status) => ExitPoll(Exits(status)) in events
    case Error(text) => exists spawn :: MainPoll(spawn, text) in events
    case _ => true
  }

  ghost predicate AllCaused(a: Agent, events: seq<AgentEvent>) {
    && (forall m <- a.trace :: Caused(m, events))
    && (a.main.SendingStarted? ==> Caused(Started(a.main.pid), events))
    && (a.main.SendingError? ==> Caused(Error(a.main.text), events))
    && (a.exit.SendingExited? ==> Caused(Exited(a.exit.status), events))
  }

  lemma StillCaused(m: Message, events: seq<AgentEvent>, e: AgentEvent)
    requires Caused(m, events)
    ensures Caused(m, events + [e])
  {
    if m.Started? {
      var reason :| MainPoll(Spawned(m.pid), reason) in events;
      assert MainPoll(Spawned(m.pid), reason) in events + [e];
    } else if m.Error? {
      var spawn :| MainPoll(spawn, m.message) in events;
      assert MainPoll(spawn, m.message) in events + [e];
    }
  }

  /** The tasks that copy send none of these. */
  lemma CopiesAdd(tx: Local, rx: RxSteps.Local, out: OutputTask, feed: StdinTask, lineBuffered: bool)
    ensures forall m <- PollOutput(tx, out, lineBuffered).added :: !m.Started? && !m.Exited? && !m.Error?
    ensures forall m <- PollStdin(tx, rx, feed).added :: !m.Started? && !m.Exited? && !m.Error?
  {
    hide SendTurn, SendOne, RxSteps.PollRecv, PollPiece, Encode, Decode, Transmit, TxAfter;
  }

  /** The exit task sends the status that a wait has given. */
  lemma ExitAdds(tx: Local, phase: ExitPhase, result: WaitResult)
    ensures var x := PollExit(tx, phase, result);
            && (forall m <- x.added :: phase.SendingExited? && m == Exited(phase.status))
            && (x.phase.SendingExited? && !phase.SendingExited? ==> result == Exits(x.phase.status))
            && (x.phase.SendingExited? && phase.SendingExited? ==> x.phase.status == phase.status)
  {
    hide SendTurn, SendOne, Encode, TxAfter;
  }

  /** Main sends the process identifier that a spawn has given, and the text of the error that it has met. */
  lemma MainAdds(a: Agent, spawn: SpawnResult, reason: Json.Text)
    ensures var a' := PollMain(a, spawn, reason);
            && a'.exit == a.exit
            && a.trace <= a'.trace
            && (forall m <- a'.trace[|a.trace|..] ::
                  && !m.Exited?
                  && (m.Started? ==> a.main.SendingStarted? && m.pid == a.main.pid)
                  && (m.Error? ==> a.main.SendingError? && m.message == a.main.text))
            && (a'.main.SendingError? && !a.main.SendingError? ==> a'.main.text == reason)
            && (a'.main.SendingError? && a.main.SendingError? ==> a'.main.text == a.main.text)
            && (a'.main.SendingStarted? && !a.main.SendingStarted? ==> spawn == Spawned(a'.main.pid))
            && (a'.main.SendingStarted? && a.main.SendingStarted? ==> a'.main.pid == a.main.pid)
  {
    hide SendTurn, SendOne, RxSteps.PollRecv, TxSteps.PollClose, Encode, Decode, TxAfter, AllEnded, AllOk,
      LineBuffered, Untaken;
    match a.main
    case AwaitingExec =>
    case Spawning =>
    case SendingStarted(_, _) =>
    case Joining =>
    case SendingError(_, _) =>
    case Flushing(_) =>
    case ClosingFlush(_) =>
    case ClosingTx(_) =>
    case Finished =>
  }

  lemma MoreCaused(a: Agent, a': Agent, events: seq<AgentEvent>, e: AgentEvent)
    requires AllCaused(a, events)
    requires a.trace <= a'.trace && forall m <- a'.trace[|a.trace|..] :: Caused(m, events + [e])
    ensures forall m <- a'.trace :: Caused(m, events + [e])
  {
    forall m | m in a'.trace
      ensures Caused(m, events + [e])
    {
      if m in a.trace {
        StillCaused(m, events, e);
      } else {
        assert a'.trace == a.trace + a'.trace[|a.trace|..];
      }
    }
  }

  lemma StepCauses(a: Agent, events: seq<AgentEvent>, e: AgentEvent)
    requires AllCaused(a, events)
    ensures AllCaused(StepAgent(a, e), events + [e])
  {
    hide PollMain, PollOutput, PollStdin, PollExit, PollHostClose, RxSteps.PollRecv, Decode;
    var a', events' := StepAgent(a, e), events + [e];
    assert events'[|events|] == e;
    if a.main.SendingStarted? {
      StillCaused(Started(a.main.pid), events, e);
    }
    if a.main.SendingError? {
      StillCaused(Error(a.main.text), events, e);
    }
    if a.exit.SendingExited? {
      StillCaused(Exited(a.exit.status), events, e);
    }
    CopiesAdd(a.tx, a.rx, a.stdout, a.stdin, a.lineBuffered);
    CopiesAdd(a.tx, a.rx, a.stderr, a.stdin, a.lineBuffered);
    if e.MainPoll? {
      MainAdds(a, e.spawn, e.reason);
      assert MainPoll(e.spawn, e.reason) in events';
    } else if e.ExitPoll? {
      ExitAdds(a.tx, a.exit, e.result);
    }
    MoreCaused(a, a', events, e);
  }

  /** What the host is told of the process, of its exit and of errors is what has been the case. */
  lemma {:induction false} TraceIsCaused(w: World, events: seq<AgentEvent>)
    ensures AllCaused(RunAgent(InitAgent(w), events), events)
  {
    hide StepAgent;
    if events != [] {
      var n := |events| - 1;
      TraceIsCaused(w, events[..n]);
      hide AllCaused;
      StepCauses(RunAgent(InitAgent(w), events[..n]), events[..n], events[n]);
      assert events[..n] + [events[n]] == events;
    }
  }
}