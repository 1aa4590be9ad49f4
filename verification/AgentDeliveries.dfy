/** What has been done with what was received and sent: what the child's stdin got, that a failure is reported, and that all of
    it is delivered in the end. */
module AgentDeliveries {
  import opened Basics
  import opened Scripts
  import opened Connection
  import Json
  import opened Messages
  import opened TxSteps
  import RxSteps
  import opened EndToEnd
  import opened TxOutcomes
  import opened AgentSteps
  import opened AgentTrace
  import opened AgentRun
  import opened AgentTheorems
  import opened AgentOutcomes
  import opened AgentFaults
  import opened AgentVerdicts

  // ---------------------------------------------------------------------------------------------------------------
  // The child's stdin
  // ---------------------------------------------------------------------------------------------------------------

  function StillToWrite(phase: StdinPhase): Bytes {
    if phase.Writing? then phase.rest else []
  }

  /** What was written and what is being written is all the data that the task has received. */
  predicate Accounted(task: StdinTask) {
    task.child.written + StillToWrite(task.phase) == Target(task.had)
  }

  lemma ReceiveAccounts(tx: Local, rx: RxSteps.Local, task: StdinTask)
    requires Accounted(task) && task.phase == Receiving && AllSome(task.had)
    ensures Accounted(PollReceiving(tx, rx, task).task)
  {
    hide RxSteps.PollRecv, SendOne, StdinFilter, Target, Decode;
    var p: RxSteps.PolledRecv<Option<Bytes>> := RxSteps.PollRecv(rx, StdinFilter(), Decode);
    var values := RxSteps.ValueOf(p.answer);
    assert task.had + [] == task.had && task.child.written + [] == task.child.written;
    match p.answer
    case Ready(Ok(Some(Some(data)))) => TargetSnoc(task.had, data);
    case Ready(Ok(_)) => TargetEnds(task.had, values);
    case _ =>
  }

  lemma WriteAccounts(tx: Local, rx: RxSteps.Local, task: StdinTask, rest: Bytes)
    requires Accounted(task) && task.phase == Writing(rest)
    ensures var task' := PollWriting(tx, rx, task, rest).task;
            AnyFatal(Used(task.child.writes, task'.child.writes)) || Accounted(task')
  {
    hide Transmit, Target, Used, Remains, AnyFatal;
    var t := Transmit(task.child, rest);
    TransmitMoves(task.child, rest);
    TransmitAnswered(task.child, rest);
    TransmissionSays(task.child, t);
    assert t.sink.written + [] == t.sink.written;
  }

  lemma StdinStepAccounts(tx: Local, rx: RxSteps.Local, task: StdinTask, all: seq<Option<Bytes>>)
    requires ForwardInv(task, rx, all) && Accounted(task)
    ensures var task' := PollStdin(tx, rx, task).task;
            AnyFatal(Used(task.child.writes, task'.child.writes)) || Accounted(task')
  {
    hide PollReceiving, PollWriting, SendTurn, StdinLeft, Target, AnyFatal, Used, SendOne;
    match task.phase
    case Receiving => ReceiveAccounts(tx, rx, task);
    case Writing(rest) => WriteAccounts(tx, rx, task, rest);
    case SendingStdinClosed(_) =>
    case StdinEnded(_) =>
  }

  lemma OnlyStdinPolls(a: Agent, e: AgentEvent)
    ensures StepAgent(a, e).stdin == if a.main.Joining? && e.StdinPoll? then PollStdin(a.tx, a.rx, a.stdin).task else a.stdin
  {
    hide PollMain, PollStdin, PollKill, PollExit, PollOutput, PollHostClose;
    if e.MainPoll? {
      MainSparesTasks(a, e.spawn, e.reason);
    }
  }

  lemma ForwardsIn(a: Agent, w: World)
    requires Inv(a, w)
    ensures ForwardInv(a.stdin, a.rx, StdinValues(w))
  {
    hide Linked, TasksInv, MainInv, ForwardInv;
  }

  lemma StepAccounts(s: Agent, a: Agent, w: World, e: AgentEvent)
    requires Inv(a, w) && UsesMore(s, a) && (FeedFailed(s, a) || Accounted(a.stdin))
    ensures FeedFailed(s, StepAgent(a, e)) || Accounted(StepAgent(a, e).stdin)
  {
    hide StepOk, StepAgent, UsesMore, Accounted, Inv, ForwardInv, AnyFatal, Used, IsMet, MeetsError, PollStdin;
    StepUses(a, e);
    StepOkUses(a, e);
    UsesAppend(s, a, StepAgent(a, e));
    OnlyStdinPolls(a, e);
    if a.main.Joining? && e.StdinPoll? && !FeedFailed(s, a) {
      ForwardsIn(a, w);
      StdinStepAccounts(a.tx, a.rx, a.stdin, StdinValues(w));
    }
  }

  lemma {:induction false} RunAccounts(w: World, events: seq<AgentEvent>)
    ensures var a := RunAgent(InitAgent(w), events);
            UsesMore(InitAgent(w), a) && (FeedFailed(InitAgent(w), a) || Accounted(a.stdin))
  {
    hide StepAgent, UsesMore, FeedFailed, Inv, FaultInv;
    RunUses(w, events);
    if events != [] {
      var n := |events| - 1;
      hide InitAgent, Accounted;
      RunAccounts(w, events[..n]);
      Reachable(w, events[..n]);
      StepAccounts(InitAgent(w), RunAgent(InitAgent(w), events[..n]), w, events[n]);
    }
  }

  lemma RunUses(w: World, events: seq<AgentEvent>)
    ensures UsesMore(InitAgent(w), RunAgent(InitAgent(w), events))
  {
    hide RunAgent, UsesMore, NotPassedOver, ExecInv, EndedBadly, Explains, InitAgent;
    RunFaultInv(w, events);
  }

  /** As long as the child's stdin has not failed, by an error or by taking nothing, it has been written all the data that the
      task has received, but for what is being written; and the task has received the first of the host's stdin messages.
      This holds as well when the task has ended badly for another reason. */
  lemma StdinIsWritten(w: World, events: seq<AgentEvent>)
    ensures var a := RunAgent(InitAgent(w), events);
            && a.stdin.had + StdinLeft(a.rx) == StdinValues(w)
            && (!AnyFatal(Used(w.childIn, a.stdin.child.writes)) ==>
                  a.stdin.child.written + StillToWrite(a.stdin.phase) == Target(a.stdin.had))
  {
    hide RunAgent, TasksInv, MainInv, Linked, StdinLeft, StdinValues, KillsLeft, Kills, Target, AnyFatal, Used,
      UsesMore;
    Reachable(w, events);
    RunAccounts(w, events);
  }

  // ---------------------------------------------------------------------------------------------------------------
  // The report of a failure
  // ---------------------------------------------------------------------------------------------------------------

  predicate PastError(main: MainPhase) {
    main.Flushing? || main.ClosingFlush? || main.ClosingTx? || main.Finished?
  }

  predicate EndsWithError(trace: seq<Message>) {
    trace != [] && trace[|trace| - 1].Error?
  }

  /** The error is reported, or sending it has failed. */
  ghost predicate Reported(s: Agent, a: Agent) {
    a.status == Some(false) && PastError(a.main) ==> EndsWithError(a.trace) || ConnectionFailed(s, a)
  }

  lemma ErrorReports(a: Agent, w: World, text: Json.Text, send: SendFuture)
    requires Inv(a, w) && a.main == SendingError(text, send)
    ensures var a' := PollError(a, text, send);
            PastError(a'.main) ==> EndsWithError(a'.trace) || SendFails(a.tx, send)
  {
    hide Linked, Extends, TasksInv, WorldInv, SendTurn, ForMessage, EndKinds, Kinds, Untaken, RunKinds;
    OneTurn(a.tx, send, Error(text), false, a.trace);
    var t := SendTurn(Open(a.tx), send);
    ErrorTrace(a.trace, text, send, t.future);
  }

  lemma LaterKeepsTrace(a: Agent, spawn: SpawnResult, reason: Json.Text)
    ensures var a' := PollMain(a, spawn, reason);
            && (PastError(a.main) ==> a'.trace == a.trace && PastError(a'.main))
            && (PastError(a'.main) ==> PastError(a.main) || a.main.SendingError? || a.main.Joining?)
            && (PastError(a'.main) && a.main.Joining? ==> a'.status == Some(true))
            && (a.main.SendingError? || PastError(a.main) ==> a'.status == a.status)
  {
    hide SendTurn, SendOne, Added, TxAfter, AllEnded, AllOk, TxSteps.PollClose, RxSteps.PollRecv, LineBuffered;
  }

  lemma StepReports(s: Agent, a: Agent, w: World, e: AgentEvent)
    requires Inv(a, w) && UsesMore(s, a) && Reported(s, a)
    ensures Reported(s, StepAgent(a, e))
  {
    hide StepOk, UsesMore, PollMain, PollTask, Inv, ConnectionFailed, EndsWithError, SendFails;
    StepUses(a, e);
    StepOkUses(a, e);
    UsesAppend(s, a, StepAgent(a, e));
    if e.MainPoll? {
      LaterKeepsTrace(a, e.spawn, e.reason);
      if a.main.SendingError? {
        ErrorReports(a, w, a.main.text, a.main.send);
        ErrorIsMain(a, e.spawn, e.reason);
      }
    } else if a.main.Joining? {
      TaskKeepsMode(a, e);
    }
  }

  lemma ErrorIsMain(a: Agent, spawn: SpawnResult, reason: Json.Text)
    requires a.main.SendingError?
    ensures PollMain(a, spawn, reason) == PollError(a, a.main.text, a.main.send)
    ensures SendFails(a.tx, a.main.send) ==> ConnectionFailed(a, PollMain(a, spawn, reason))
  {
    hide SendTurn, SendOne, Added, TxAfter, SendFails, Clean;
    SendUses(a.tx, a.main.send);
  }

  lemma {:induction false} RunReports(w: World, events: seq<AgentEvent>)
    ensures Reported(InitAgent(w), RunAgent(InitAgent(w), events))
  {
    hide StepAgent, UsesMore, Inv;
    if events != [] {
      var n := |events| - 1;
      hide InitAgent, Reported;
      RunReports(w, events[..n]);
      RunUses(w, events[..n]);
      Reachable(w, events[..n]);
      StepReports(InitAgent(w), RunAgent(InitAgent(w), events[..n]), w, events[n]);
    }
  }

  /** The trace of a run that failed ends with the error, once main is done with sending it, unless the connection has failed;
      that of a run that succeeded has none. */
  lemma FailureIsReported(w: World, events: seq<AgentEvent>)
    ensures var a := RunAgent(InitAgent(w), events);
            && (a.status == Some(false) && !a.main.SendingError? ==>
                  EndsWithError(a.trace) || ConnectionFailed(InitAgent(w), a))
            && (a.status == Some(true) ==> forall m <- a.trace :: !m.Error?)
  {
    hide RunAgent, ConnectionFailed, InitAgent, Complete, Wire, Bodies;
    RunReports(w, events);
    StatusIsTheJoin(w, events);
    if RunAgent(InitAgent(w), events).status == Some(true) {
      SuccessfulRun(w, events);
      CompleteHasNoError(RunAgent(InitAgent(w), events).trace);
    }
  }

  lemma CompleteHasNoError(trace: seq<Message>)
    requires Complete(trace)
    ensures forall m <- trace :: !m.Error?
  {
    hide OfStream, ExitsIn, EndsClosed;
  }

  // ---------------------------------------------------------------------------------------------------------------
  // The end of the run
  // ---------------------------------------------------------------------------------------------------------------

  /** When closing begins everything is flushed, and so it stays. */
  ghost predicate Delivered(s: Agent, a: Agent) {
    && (a.main.ClosingTx? ==> a.tx.settled == |a.trace|)
    && (a.main.Finished? ==> a.tx.settled == |a.trace| || ConnectionFailed(s, a))
  }

  lemma LastFlushDelivers(a: Agent, send: SendFuture)
    requires Linked(a.tx, a.trace) && a.main == ClosingFlush(send) && send == FLUSH
    ensures var a' := PollLastFlush(a, send);
            && (a'.main.ClosingTx? ==> a'.tx.settled == |a'.trace|)
            && (a'.main.Finished? ==> ConnectionFailed(a, a'))
  {
    hide PollFlush, Wire, Encode, Clean;
    FlushDelivers(a.tx);
    SendUses(a.tx, send);
    assert |Bodies(a.trace)| == |a.trace|;
    OkIsDone(SendTurn(Open(a.tx), send).result);
  }

  lemma ClosingDelivers(a: Agent, stage: CloseStage)
    requires Linked(a.tx, a.trace) && a.main == ClosingTx(stage) && a.tx.settled == |a.trace|
    requires stage != Draining && !stage.lost ==> a.tx.transmitting == []
    ensures PollClosingTx(a, stage).tx.settled == |a.trace| && PollClosingTx(a, stage).trace == a.trace
  {
    hide TxSteps.PollClose, Wire;
    CloseTurn(a.tx, a.trace, stage);
    SettledInTrace(PollClose(a.tx, stage).local, a.trace);
  }

  lemma LastStages(a: Agent, w: World)
    requires Inv(a, w)
    ensures Linked(a.tx, a.trace)
    ensures a.main.ClosingFlush? ==> a.main.send == FLUSH
    ensures a.main.ClosingTx? && a.main.stage != Draining && !a.main.stage.lost ==> a.tx.transmitting == []
  {
    hide Linked, TasksInv, WorldInv, OverInv, FLUSH;
  }

  lemma LastSteps(a: Agent, spawn: SpawnResult, reason: Json.Text)
    ensures a.main.ClosingFlush? ==> PollMain(a, spawn, reason) == PollLastFlush(a, a.main.send)
    ensures a.main.ClosingTx? ==> PollMain(a, spawn, reason) == PollClosingTx(a, a.main.stage)
    ensures a.main.Finished? ==> PollMain(a, spawn, reason) == a
  {
    hide PollAwait, PollSpawn, PollStarted, PollJoin, PollError, PollLastFlush, PollClosingTx;
  }

  lemma MainDelivers(s: Agent, a: Agent, w: World, spawn: SpawnResult, reason: Json.Text)
    requires Inv(a, w) && UsesMore(s, a) && UsesMore(a, PollMain(a, spawn, reason)) && Delivered(s, a)
    ensures Delivered(s, PollMain(a, spawn, reason))
  {
    hide Linked, Inv, UsesMore, ConnectionFailed, PollMain, PollLastFlush, PollClosingTx, FLUSH;
    UsesAppend(s, a, PollMain(a, spawn, reason));
    LastStages(a, w);
    LastSteps(a, spawn, reason);
    if a.main.ClosingFlush? {
      LastFlushDelivers(a, a.main.send);
    } else if a.main.ClosingTx? {
      ClosingDelivers(a, a.main.stage);
    } else if !a.main.Finished? {
      NotClosingYet(a, spawn, reason);
    }
  }

  lemma NotClosingYet(a: Agent, spawn: SpawnResult, reason: Json.Text)
    requires !a.main.ClosingFlush? && !a.main.ClosingTx? && !a.main.Finished?
    ensures !PollMain(a, spawn, reason).main.ClosingTx? && !PollMain(a, spawn, reason).main.Finished?
  {
    hide SendTurn, SendOne, Added, TxAfter, AllEnded, AllOk, RxSteps.PollRecv, LineBuffered;
  }

  lemma StepDelivers(s: Agent, a: Agent, w: World, e: AgentEvent)
    requires Inv(a, w) && UsesMore(s, a) && Delivered(s, a)
    ensures Delivered(s, StepAgent(a, e))
  {
    hide StepOk, UsesMore, PollMain, PollTask, Inv, ConnectionFailed;
    StepUses(a, e);
    StepOkUses(a, e);
    if e.MainPoll? {
      MainDelivers(s, a, w, e.spawn, e.reason);
    } else if a.main.Joining? {
      TaskKeepsMode(a, e);
    }
  }

  lemma {:induction false} RunDelivers(w: World, events: seq<AgentEvent>)
    ensures Delivered(InitAgent(w), RunAgent(InitAgent(w), events))
  {
    hide StepAgent, UsesMore, Inv;
    if events != [] {
      var n := |events| - 1;
      hide InitAgent, Delivered;
      RunDelivers(w, events[..n]);
      RunUses(w, events[..n]);
      Reachable(w, events[..n]);
      StepDelivers(InitAgent(w), RunAgent(InitAgent(w), events[..n]), w, events[n]);
    }
  }

  /** When main is finished and the connection has not failed, everything that was ever accepted is written and flushed, an
      error report included; and so it is as soon as closing begins. */
  lemma EverythingIsDelivered(w: World, events: seq<AgentEvent>)
    ensures var a := RunAgent(InitAgent(w), events);
            a.main.ClosingTx? || (a.main.Finished? && !ConnectionFailed(InitAgent(w), a)) ==>
              a.tx.sink.written == Wire(Bodies(a.trace)) && a.tx.sink.flushed == |a.tx.sink.written|
  {
    hide RunAgent, ConnectionFailed, InitAgent, Wire, Bodies, TasksInv, MainInv, WorldInv, Linked;
    var a := RunAgent(InitAgent(w), events);
    RunDelivers(w, events);
    Reachable(w, events);
    if a.tx.settled == |a.trace| {
      SettledIsWritten(a.tx, a.trace);
    }
  }
}
