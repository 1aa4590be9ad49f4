/** What the surroundings of the agent have to do with its failures: every failure of a part comes from an answer of theirs,
    and failures of theirs are not passed over. */
module AgentFaults {
  import opened Basics
  import opened Scripts
  import opened Connection
  import Json
  import opened Source
  import opened Messages
  import opened LineReader
  import opened TxSteps
  import opened Framing
  import RxSteps
  import opened TxOutcomes
  import opened RxOutcomes
  import opened AgentSteps
  import opened AgentOutcomes

  // ---------------------------------------------------------------------------------------------------------------
  // One receive
  // ---------------------------------------------------------------------------------------------------------------

  lemma BrokeIfLast(before: seq<ReadAnswer>, after: seq<ReadAnswer>, waits: bool, fails: bool)
    requires Reads(before, after, waits, fails)
    ensures fails <==> ReadBreaks in Used(before, after)
  {
    var used := Used(before, after);
    hide Used, Remains;
    if used != [] && ReadBreaks in used {
      var k :| 0 <= k < |used| && used[k] == ReadBreaks;
      assert k < |used| - 1 ==> used[..|used| - 1][k] == used[k];
    }
  }

  /** A receive hands out items of the log, and its failures are a failed read or a malformed frame. */
  lemma RecvUses<M>(rx: RxSteps.Local, from: Filter<M>)
    requires GivesBack(from)
    ensures var rx' := RxSteps.PollRecv(rx, from, Decode).local;
            && Remains(rx.reading.source.schedule, rx'.reading.source.schedule)
            && (forall item <- RxSteps.Log(rx', Decode) :: item in RxSteps.Log(rx, Decode))
            && (RecvFails(rx, from) ==>
                  || ReadBreaks in Used(rx.reading.source.schedule, rx'.reading.source.schedule)
                  || Malformed in RxSteps.Log(rx, Decode))
  {
    hide RxSteps.PollRecv, RxSteps.Log, Decode, Used, Reads, Remains, GivesBack, RxSteps.Selects;
    var p := RxSteps.PollRecv(rx, from, Decode);
    RxSteps.RecvSelects(rx, from, Decode);
    RecvOutcome(rx, from, Decode);
    BrokeIfLast(rx.reading.source.schedule, p.local.reading.source.schedule, p.answer.Pending?, FailsToRead(p.answer));
    ReadsRemain(rx.reading.source.schedule, p.local.reading.source.schedule, p.answer.Pending?, FailsToRead(p.answer));
    SelectsFromLog(rx, p, from);
    match p.answer
    case Ready(Err(ParseFailed)) =>
    case Ready(Err(TransportFailed)) =>
    case _ =>
  }

  lemma SelectsFromLog<M>(rx: RxSteps.Local, p: RxSteps.PolledRecv<M>, from: Filter<M>)
    requires RxSteps.Selects(rx, p, from, Decode)
    ensures forall item <- RxSteps.Log(p.local, Decode) :: item in RxSteps.Log(rx, Decode)
    ensures p.answer == Ready(Err(ParseFailed)) ==> Malformed in RxSteps.Log(rx, Decode)
  {
    hide RxSteps.Log, Decode;
    if RxSteps.TakesItem(p.answer) {
      var k := RxSteps.TakenItem(rx, p, from, Decode);
      var log := RxSteps.Log(rx, Decode);
      assert forall item <- RxSteps.RemoveAt(log, k) :: item in log;
      if p.answer == Ready(Err(ParseFailed)) {
        MalformedTaken(rx, p, from);
      }
    } else {
      RxSteps.OtherAnswers(rx, p, from, Decode);
    }
  }

  lemma MalformedTaken<M>(rx: RxSteps.Local, p: RxSteps.PolledRecv<M>, from: Filter<M>)
    requires RxSteps.Selects(rx, p, from, Decode) && p.answer == Ready(Err(ParseFailed))
    ensures Malformed in RxSteps.Log(rx, Decode)
  {
    hide RxSteps.Log, Decode, RxSteps.RemoveAt;
  }

  // ---------------------------------------------------------------------------------------------------------------
  // What a step uses of the surroundings
  // ---------------------------------------------------------------------------------------------------------------

  function OutSchedule(a: Agent): seq<ReadAnswer> {
    a.stdout.splitting.source.schedule
  }

  function ErrSchedule(a: Agent): seq<ReadAnswer> {
    a.stderr.splitting.source.schedule
  }

  function HostSchedule(a: Agent): seq<ReadAnswer> {
    a.rx.reading.source.schedule
  }

  ghost predicate UsesMore(a: Agent, a': Agent) {
    && SinkRemains(a.tx.sink, a'.tx.sink)
    && Remains(HostSchedule(a), HostSchedule(a'))
    && Remains(a.stdin.child.writes, a'.stdin.child.writes)
    && Remains(OutSchedule(a), OutSchedule(a'))
    && Remains(ErrSchedule(a), ErrSchedule(a'))
    && (forall item <- RxSteps.Log(a'.rx, Decode) :: item in RxSteps.Log(a.rx, Decode))
  }

  /** No answer that a step has used was a failure, except as said. */
  ghost predicate NothingFails(a: Agent, a': Agent) {
    && Clean(a.tx.sink, a'.tx.sink)
    && !AnyFatal(Used(a.stdin.child.writes, a'.stdin.child.writes))
    && ReadBreaks !in Used(OutSchedule(a), OutSchedule(a'))
    && ReadBreaks !in Used(ErrSchedule(a), ErrSchedule(a'))
  }

  lemma SameUses(a: Agent)
    ensures UsesMore(a, a) && NothingFails(a, a)
  {
    CleanSame(a.tx.sink);
    UsedNothing(HostSchedule(a));
    UsedNothing(a.stdin.child.writes);
    UsedNothing(OutSchedule(a));
    UsedNothing(ErrSchedule(a));
    hide RxSteps.Log, SinkRemains, Clean, Decode;
  }

  /** A turn of a future for the connection. */
  lemma SendUses(tx: Local, send: SendFuture)
    ensures var tx' := TxAfter(SendTurn(Open(tx), send), tx);
            && SinkRemains(tx.sink, tx'.sink)
            && (SendFails(tx, send) <==> !Clean(tx.sink, tx'.sink))
  {
    hide SendTurn, Clean, SinkRemains;
    TurnOutcome(tx, send);
  }

  lemma OutputUses(a: Agent, task: OutputTask)
    ensures var o := PollOutput(a.tx, task, a.lineBuffered);
            var before, after := task.splitting.source.schedule, o.task.splitting.source.schedule;
            && SinkRemains(a.tx.sink, o.tx.sink) && Remains(before, after)
            && (OutputMeetsError(a, task) <==> ReadBreaks in Used(before, after) || !Clean(a.tx.sink, o.tx.sink))
  {
    hide PollPiece, SendTurn, SendOne, Added, SendFails, Clean, SinkRemains, Used, Remains, TxAfter, Reads;
    CleanSame(a.tx.sink);
    NoReadUsed(task.splitting.source.schedule);
    match task.phase
    case Copying =>
      var p := PollPiece(task.splitting, a.lineBuffered);
      PieceOutcome(task.splitting, a.lineBuffered);
      BrokeIfLast(task.splitting.source.schedule, p.rest.source.schedule, p.piece.Pending?,
                  p.piece.Ready? && p.piece.value.Err?);
      ReadsRemain(task.splitting.source.schedule, p.rest.source.schedule, p.piece.Pending?,
                  p.piece.Ready? && p.piece.value.Err?);
    case SendingData(_, send) => SendUses(a.tx, send);
    case SendingClosed(send) => SendUses(a.tx, send);
    case CopyEnded(_) =>
  }

  lemma NoReadUsed(schedule: seq<ReadAnswer>)
    ensures Remains(schedule, schedule) && ReadBreaks !in Used(schedule, schedule)
  {
    UsedNothing(schedule);
  }

  lemma ReadsRemain(before: seq<ReadAnswer>, after: seq<ReadAnswer>, waits: bool, fails: bool)
    requires Reads(before, after, waits, fails)
    ensures Remains(before, after)
  {
  }

  lemma StdinUses(a: Agent)
    ensures var s := PollStdin(a.tx, a.rx, a.stdin);
            var used := Used(a.stdin.child.writes, s.task.child.writes);
            var read := Used(HostSchedule(a), s.rx.reading.source.schedule);
            && SinkRemains(a.tx.sink, s.tx.sink)
            && Remains(a.stdin.child.writes, s.task.child.writes)
            && Remains(HostSchedule(a), s.rx.reading.source.schedule)
            && (forall item <- RxSteps.Log(s.rx, Decode) :: item in RxSteps.Log(a.rx, Decode))
            && (AnyFatal(used) || !Clean(a.tx.sink, s.tx.sink) ==> StdinMeetsError(a))
            && (StdinMeetsError(a) ==>
                  || AnyFatal(used) || !Clean(a.tx.sink, s.tx.sink)
                  || ReadBreaks in read || Malformed in RxSteps.Log(a.rx, Decode))
  {
    hide RxSteps.PollRecv, RxSteps.Log, SendTurn, SendOne, Added, StdinFilter, Decode, Transmit, SendFails, RecvFails,
      Clean, SinkRemains, Used, Remains, AnyFatal, TxAfter;
    CleanSame(a.tx.sink);
    NoReadUsed(HostSchedule(a));
    NoWriteUsed(a.stdin.child.writes);
    match a.stdin.phase
    case Receiving =>
      AgentFilters();
      RecvUses(a.rx, StdinFilter());
    case Writing(rest) =>
      TransmitAnswered(a.stdin.child, rest);
      AnsweredRemains(a.stdin.child, Transmit(a.stdin.child, rest));
      TransmissionSays(a.stdin.child, Transmit(a.stdin.child, rest));
    case SendingStdinClosed(send) => SendUses(a.tx, send);
    case StdinEnded(_) =>
  }

  lemma NoWriteUsed(writes: seq<WriteAnswer>)
    ensures Remains(writes, writes) && !AnyFatal(Used(writes, writes))
  {
    UsedNothing(writes);
  }

  lemma AnsweredRemains(s: Sink, t: Transmission)
    requires Answered(s, t)
    ensures Remains(s.writes, t.sink.writes)
  {
  }

  lemma ExitUses(a: Agent, result: WaitResult)
    ensures var x := PollExit(a.tx, a.exit, result);
            && SinkRemains(a.tx.sink, x.tx.sink)
            && (ExitMeetsError(a, result) <==> !Clean(a.tx.sink, x.tx.sink) || (a.exit == Waiting && result == WaitFails))
  {
    hide SendTurn, SendOne, Added, SendFails, Clean, SinkRemains, TxAfter;
    CleanSame(a.tx.sink);
    if a.exit.SendingExited? {
      SendUses(a.tx, a.exit.send);
    }
  }

  lemma ListenUses(a: Agent)
    ensures var k := PollKill(a.rx, a.exit);
            var read := Used(HostSchedule(a), k.rx.reading.source.schedule);
            && Remains(HostSchedule(a), k.rx.reading.source.schedule)
            && (forall item <- RxSteps.Log(k.rx, Decode) :: item in RxSteps.Log(a.rx, Decode))
            && (a.exit == Waiting && RecvFails(a.rx, KillFromMessage) ==>
                  ReadBreaks in read || Malformed in RxSteps.Log(a.rx, Decode))
  {
    hide RxSteps.PollRecv, RxSteps.Log, Decode, RecvFails, Used, Remains, Disjoint;
    NoReadUsed(HostSchedule(a));
    AgentFilters();
    RecvUses(a.rx, KillFromMessage);
  }

  lemma HostCloseUses(a: Agent, task: OutputTask, closes: bool)
    ensures var h := PollHostClose(a.rx, task, closes);
            && Remains(HostSchedule(a), h.rx.reading.source.schedule)
            && (forall item <- RxSteps.Log(h.rx, Decode) :: item in RxSteps.Log(a.rx, Decode))
            && h.task.splitting == task.splitting
  {
    hide RxSteps.PollRecv, RxSteps.Log, Decode, RecvFails, Used, Remains, OutputFilter, Disjoint;
    NoReadUsed(HostSchedule(a));
    AgentFilters();
    RecvUses(a.rx, OutputFilter(task.stream));
  }

  lemma MainUses(a: Agent, spawn: SpawnResult, reason: Json.Text)
    ensures var a' := PollMain(a, spawn, reason);
            && SinkRemains(a.tx.sink, a'.tx.sink)
            && Remains(HostSchedule(a), HostSchedule(a'))
            && (forall item <- RxSteps.Log(a'.rx, Decode) :: item in RxSteps.Log(a.rx, Decode))
            && (a.main.AwaitingExec? || a.main.Spawning? || a.main.Joining? ==> Clean(a.tx.sink, a'.tx.sink))
            && (a.main.SendingStarted? ==> (SendFails(a.tx, a.main.send) <==> !Clean(a.tx.sink, a'.tx.sink)))
            && (a.main.AwaitingExec? && RecvFails(a.rx, ExecFromMessage) ==>
                  ReadBreaks in Used(HostSchedule(a), HostSchedule(a')) || Malformed in RxSteps.Log(a.rx, Decode))
  {
    hide RxSteps.PollRecv, RxSteps.Log, SendTurn, SendOne, Added, Decode, SendFails, RecvFails, Clean, SinkRemains,
      Used, Remains, TxAfter, LineBuffered, AllEnded, AllOk, PollClose, Disjoint;
    CleanSame(a.tx.sink);
    NoReadUsed(HostSchedule(a));
    match a.main
    case AwaitingExec =>
      AgentFilters();
      RecvUses(a.rx, ExecFromMessage);
    case Spawning =>
    case SendingStarted(_, send) => SendUses(a.tx, send);
    case Joining =>
    case SendingError(_, send) => SendUses(a.tx, send);
    case Flushing(send) => SendUses(a.tx, send);
    case ClosingFlush(send) => SendUses(a.tx, send);
    case ClosingTx(stage) => CloseUses(a.tx, stage);
    case Finished =>
  }

  /** Waiting for `exec` ends in an error only because of a malformed frame, a failed read, or the end of a stream without an
      `exec`; and it goes on only because a read is not ready. */
  lemma AwaitLeaves(a: Agent, reason: Json.Text)
    requires a.main.AwaitingExec?
    ensures var a' := PollAwait(a, reason);
            var used := Used(HostSchedule(a), HostSchedule(a'));
            && (a'.main.SendingError? ==>
                  || Malformed in RxSteps.Log(a.rx, Decode) || EndsWith(used, ReadBreaks)
                  || RxSteps.Wanted(RxSteps.Log(a.rx, Decode), ExecFromMessage) == [])
            && (a'.main.AwaitingExec? ==> EndsWith(used, ReadNotReady) || HostSchedule(a') == [])
            && (a'.main.Spawning? ==> RxSteps.Wanted(RxSteps.Log(a.rx, Decode), ExecFromMessage) != [])
  {
    hide RxSteps.PollRecv, RxSteps.Log, RxSteps.Wanted, Decode, SendOne, ExecFromMessage, Disjoint, Used, Remains,
      LineBuffered;
    AgentFilters();
    var p := RxSteps.PollRecv(a.rx, ExecFromMessage, Decode);
    RecvOutcome(a.rx, ExecFromMessage, Decode);
    RxSteps.RecvSelects(a.rx, ExecFromMessage, Decode);
    SelectsFromLog(a.rx, p, ExecFromMessage);
    RxSteps.RecvTakesOwn(a.rx, ExecFromMessage, Decode);
    match p.answer
    case Ready(Err(ParseFailed)) =>
    case Ready(Err(TransportFailed)) =>
    case Ready(Ok(None)) =>
    case Ready(Ok(Some(_))) =>
    case Pending =>
  }

  lemma CloseUses(tx: Local, stage: CloseStage)
    ensures SinkRemains(tx.sink, PollClose(tx, stage).local.sink)
  {
    hide PollClose;
    CloseOutcome(tx, stage);
  }

  /** Before there is a result, or while the tasks are joined. */
  predicate Unfinished(main: MainPhase) {
    main.AwaitingExec? || main.Spawning? || main.SendingStarted? || main.Joining?
  }

  /** What an error comes from, by the part that meets it. */
  ghost predicate ComesFrom(a: Agent, e: AgentEvent, a': Agent) {
    var host := ReadBreaks in Used(HostSchedule(a), HostSchedule(a')) || Malformed in RxSteps.Log(a.rx, Decode);
    var connection := !Clean(a.tx.sink, a'.tx.sink);
    match PartOf(e)
    case MainPart =>
      || host || connection || (e.MainPoll? && e.spawn == SpawnFails)
      || (a.main.AwaitingExec? && RxSteps.PollRecv(a.rx, ExecFromMessage, Decode).answer == Ready(Ok(None)))
      || (AllEnded(a) && !AllOk(a))
    case ExitPart => host || connection || e == ExitPoll(WaitFails)
    case StdinPart => host || connection || AnyFatal(Used(a.stdin.child.writes, a'.stdin.child.writes))
    case StdoutPart =>
      connection || ReadBreaks in Used(OutSchedule(a), OutSchedule(a')) || e == StdoutHostPoll(false)
    case StderrPart =>
      connection || ReadBreaks in Used(ErrSchedule(a), ErrSchedule(a')) || e == StderrHostPoll(false)
  }

  /** Failures are met by the part that they concern. After the result the connection may fail unheeded. */
  ghost predicate IsMet(a: Agent, e: AgentEvent, a': Agent) {
    && (Unfinished(a.main) && !Clean(a.tx.sink, a'.tx.sink) ==> MeetsError(a, e))
    && (AnyFatal(Used(a.stdin.child.writes, a'.stdin.child.writes)) ==> PartOf(e) == StdinPart && MeetsError(a, e))
    && (ReadBreaks in Used(OutSchedule(a), OutSchedule(a')) ==> PartOf(e) == StdoutPart && MeetsError(a, e))
    && (ReadBreaks in Used(ErrSchedule(a), ErrSchedule(a')) ==> PartOf(e) == StderrPart && MeetsError(a, e))
  }

  ghost predicate StepOk(a: Agent, e: AgentEvent) {
    var a' := StepAgent(a, e);
    UsesMore(a, a') && IsMet(a, e, a') && (MeetsError(a, e) ==> ComesFrom(a, e, a'))
  }

  lemma MainStepUses(a: Agent, spawn: SpawnResult, reason: Json.Text)
    ensures StepOk(a, MainPoll(spawn, reason))
  {
    hide PollMain, RxSteps.PollRecv, RxSteps.Log, Clean, SinkRemains, Used, Remains, AnyFatal, SendFails, RecvFails,
      Decode, AllEnded, AllOk;
    SameUses(a);
    MainUses(a, spawn, reason);
    MainSparesTasks(a, spawn, reason);
  }

  lemma OutputStepUses(a: Agent, e: AgentEvent)
    requires a.main.Joining? && (e == StdoutPoll || e == StderrPoll)
    ensures StepOk(a, e)
  {
    hide PollOutput, OutputMeetsError, RxSteps.Log, Clean, SinkRemains, Used, Remains, AnyFatal, Decode;
    SameUses(a);
    OutputUses(a, a.stdout);
    OutputUses(a, a.stderr);
  }

  lemma StdinStepUses(a: Agent)
    requires a.main.Joining?
    ensures StepOk(a, StdinPoll)
  {
    hide PollStdin, StdinMeetsError, RxSteps.Log, Clean, SinkRemains, Used, Remains, AnyFatal, Decode;
    SameUses(a);
    StdinUses(a);
  }

  lemma ExitStepUses(a: Agent, e: AgentEvent)
    requires a.main.Joining? && PartOf(e) == ExitPart
    ensures StepOk(a, e)
  {
    hide PollExit, PollKill, ExitMeetsError, RecvFails, RxSteps.Log, Clean, SinkRemains, Used, Remains, AnyFatal,
      Decode;
    SameUses(a);
    ListenUses(a);
    if e.ExitPoll? {
      ExitUses(a, e.result);
    }
  }

  lemma HostStepUses(a: Agent, e: AgentEvent)
    requires a.main.Joining? && (e.StdoutHostPoll? || e.StderrHostPoll?)
    ensures StepOk(a, e)
  {
    hide PollHostClose, RxSteps.PollRecv, RxSteps.Log, Clean, SinkRemains, Used, Remains, AnyFatal, Decode;
    SameUses(a);
    HostCloseUses(a, a.stdout, e.closes);
    HostCloseUses(a, a.stderr, e.closes);
  }

  lemma IdleStep(a: Agent, e: AgentEvent)
    requires !a.main.Joining? && !e.MainPoll?
    ensures StepOk(a, e)
  {
    hide UsesMore, Clean, Used, AnyFatal;
    SameUses(a);
  }

  lemma StepUses(a: Agent, e: AgentEvent)
    ensures StepOk(a, e)
  {
    hide StepOk;
    match e
    case MainPoll(spawn, reason) => MainStepUses(a, spawn, reason);
    case _ =>
      if !a.main.Joining? {
        IdleStep(a, e);
      } else if PartOf(e) == ExitPart {
        ExitStepUses(a, e);
      } else if e.StdinPoll? {
        StdinStepUses(a);
      } else if e.StdoutPoll? || e.StderrPoll? {
        OutputStepUses(a, e);
      } else {
        HostStepUses(a, e);
      }
  }
}
