/** Why the parts of the agent end badly: exactly because something that they poll has failed. */
module AgentOutcomes {
  import opened Basics
  import opened Connection
  import Json
  import opened Messages
  import opened LineReader
  import opened TxSteps
  import RxSteps
  import opened TxOutcomes
  import opened AgentSteps

  // ---------------------------------------------------------------------------------------------------------------
  // Errors that a part meets, and what they do
  // ---------------------------------------------------------------------------------------------------------------

  predicate SendFails(tx: Local, send: SendFuture) {
    var result := SendTurn(Open(tx), send).result;
    result.Some? && IsError(result.value)
  }

  predicate RecvFails<M>(rx: RxSteps.Local, from: Filter<M>) {
    var answer := RxSteps.PollRecv(rx, from, Decode).answer;
    answer.Ready? && answer.value.Err?
  }

  predicate OutputMeetsError(a: Agent, task: OutputTask) {
    match task.phase
    case Copying =>
      var piece := PollPiece(task.splitting, a.lineBuffered).piece;
      piece.Ready? && piece.value.Err?
    case SendingData(_, send) => SendFails(a.tx, send)
    case SendingClosed(send) => SendFails(a.tx, send)
    case CopyEnded(_) => false
  }

  /** The host asks for the stream to be closed, and that fails. */
  predicate CloseFails(a: Agent, task: OutputTask, closes: bool) {
    && task.phase == Copying && !closes
    && RxSteps.PollRecv(a.rx, OutputFilter(task.stream), Decode).answer == Ready(Ok(Some(Closed)))
  }

  predicate StdinMeetsError(a: Agent) {
    match a.stdin.phase
    case Receiving => RecvFails(a.rx, StdinFilter())
    case Writing(rest) => IsError(Transmit(a.stdin.child, rest).outcome)
    case SendingStdinClosed(send) => SendFails(a.tx, send)
    case StdinEnded(_) => false
  }

  predicate ExitMeetsError(a: Agent, result: WaitResult) {
    match a.exit
    case Waiting => result.WaitFails?
    case SendingExited(_, send) => SendFails(a.tx, send)
    case ExitEnded(_) => false
  }

  /** Main fails when it cannot receive `exec`, there is none, the spawn or the first message fails, or a task has. */
  predicate MainMeetsError(a: Agent, spawn: SpawnResult) {
    match a.main
    case AwaitingExec =>
      RecvFails(a.rx, ExecFromMessage) || RxSteps.PollRecv(a.rx, ExecFromMessage, Decode).answer == Ready(Ok(None))
    case Spawning => spawn.SpawnFails?
    case SendingStarted(_, send) => SendFails(a.tx, send)
    case Joining => AllEnded(a) && !AllOk(a)
    case _ => false
  }

  /** The event finds that something has failed. */
  predicate MeetsError(a: Agent, e: AgentEvent) {
    if e.MainPoll? then MainMeetsError(a, e.spawn)
    else
      && a.main.Joining?
      && match e
         case MainPoll(_, _) => false
         case KillPoll => a.exit == Waiting && RecvFails(a.rx, KillFromMessage)
         case ExitPoll(result) => ExitMeetsError(a, result)
         case StdinPoll => StdinMeetsError(a)
         case StdoutPoll => OutputMeetsError(a, a.stdout)
         case StderrPoll => OutputMeetsError(a, a.stderr)
         case StdoutHostPoll(closes) => CloseFails(a, a.stdout, closes)
         case StderrHostPoll(closes) => CloseFails(a, a.stderr, closes)
  }

  predicate EndedBadly(part: Part, a: Agent) {
    match part
    case MainPart => a.status == Some(false)
    case ExitPart => a.exit == ExitEnded(false)
    case StdinPart => a.stdin.phase == StdinEnded(false)
    case StdoutPart => a.stdout.phase == CopyEnded(false)
    case StderrPart => a.stderr.phase == CopyEnded(false)
  }

  // ---------------------------------------------------------------------------------------------------------------
  // Step by step
  // ---------------------------------------------------------------------------------------------------------------

  lemma OutputEnds(a: Agent, task: OutputTask)
    ensures PollOutput(a.tx, task, a.lineBuffered).task.phase == CopyEnded(false)
       <==> task.phase == CopyEnded(false) || OutputMeetsError(a, task)
  {
    hide PollPiece, SendTurn, SendOne, Added;
  }

  lemma HostCloseEnds(a: Agent, task: OutputTask, closes: bool)
    ensures PollHostClose(a.rx, task, closes).task.phase == CopyEnded(false)
       <==> task.phase == CopyEnded(false) || CloseFails(a, task, closes)
  {
    hide RxSteps.PollRecv, OutputFilter, Decode;
  }

  lemma StdinEnds(a: Agent)
    ensures PollStdin(a.tx, a.rx, a.stdin).task.phase == StdinEnded(false)
       <==> a.stdin.phase == StdinEnded(false) || StdinMeetsError(a)
  {
    hide RxSteps.PollRecv, SendTurn, SendOne, Added, StdinFilter, Decode, Transmit;
    match a.stdin.phase
    case Receiving =>
    case Writing(rest) => OnlyDoneIsOk(Transmit(a.stdin.child, rest).outcome);
    case SendingStdinClosed(_) =>
    case StdinEnded(_) =>
  }

  lemma OnlyDoneIsOk(o: Outcome)
    ensures o == DONE || o.Pending? || IsError(o)
  {
    if o.Ready? && o.value.Ok? {
      assert o.value.value == ();
    }
  }

  lemma ExitEnds(a: Agent, result: WaitResult)
    ensures PollExit(a.tx, a.exit, result).phase == ExitEnded(false)
       <==> a.exit == ExitEnded(false) || ExitMeetsError(a, result)
  {
    hide SendTurn, SendOne, Added;
  }

  lemma KillEnds(a: Agent)
    ensures PollKill(a.rx, a.exit).phase == ExitEnded(false)
       <==> a.exit == ExitEnded(false) || (a.exit == Waiting && RecvFails(a.rx, KillFromMessage))
  {
    hide RxSteps.PollRecv, Decode;
  }

  /** Before the join is over there is no result, and then it is what the join has found. */
  ghost predicate StatusInv(a: Agent) {
    && (a.main.AwaitingExec? || a.main.Spawning? || a.main.SendingStarted? ==> a.exit == Waiting)
    && (a.status.None? <==> a.main.AwaitingExec? || a.main.Spawning? || a.main.SendingStarted? || a.main.Joining?)
    && (a.status.Some? ==> (a.status.value <==> AllOk(a)))
  }

  lemma MainStatus(a: Agent, spawn: SpawnResult, reason: Json.Text)
    requires StatusInv(a)
    ensures StatusInv(PollMain(a, spawn, reason))
    ensures PollMain(a, spawn, reason).status == Some(false) <==> a.status == Some(false) || MainMeetsError(a, spawn)
  {
    hide RxSteps.PollRecv, SendTurn, SendOne, Added, Decode, LineBuffered, PollClose, AllEnded, TxAfter;
    match a.main
    case AwaitingExec =>
    case Spawning =>
    case SendingStarted(_, _) =>
    case Joining =>
    case SendingError(_, _) =>
    case Flushing(_) =>
    case ClosingFlush(_) =>
    case ClosingTx(_) =>
    case Finished =>
  }

  lemma StepStatus(a: Agent, e: AgentEvent)
    requires StatusInv(a)
    ensures StatusInv(StepAgent(a, e))
    ensures forall part :: EndedBadly(part, StepAgent(a, e)) <==>
              EndedBadly(part, a) || (PartOf(e) == part && MeetsError(a, e))
  {
    hide PollMain, PollOutput, PollHostClose, PollStdin, PollExit, PollKill, MainMeetsError, StdinMeetsError,
      ExitMeetsError, OutputMeetsError, CloseFails, RecvFails;
    if e.MainPoll? {
      MainStatus(a, e.spawn, e.reason);
      MainSparesTasks(a, e.spawn, e.reason);
    } else if a.main.Joining? {
      match e
      case MainPoll(_, _) =>
      case KillPoll => KillEnds(a);
      case ExitPoll(result) => ExitEnds(a, result);
      case StdinPoll => StdinEnds(a);
      case StdoutPoll => OutputEnds(a, a.stdout);
      case StderrPoll => OutputEnds(a, a.stderr);
      case StdoutHostPoll(closes) => HostCloseEnds(a, a.stdout, closes);
      case StderrHostPoll(closes) => HostCloseEnds(a, a.stderr, closes);
    }
  }

  lemma MainSparesTasks(a: Agent, spawn: SpawnResult, reason: Json.Text)
    ensures var a' := PollMain(a, spawn, reason);
            a'.exit == a.exit && a'.stdin == a.stdin && a'.stdout == a.stdout && a'.stderr == a.stderr
  {
    hide RxSteps.PollRecv, SendTurn, SendOne, Added, Decode, LineBuffered, PollClose, AllEnded, AllOk, TxAfter;
  }

  // ---------------------------------------------------------------------------------------------------------------
  // Over whole runs
  // ---------------------------------------------------------------------------------------------------------------

  lemma {:induction false} RunStatus(w: World, events: seq<AgentEvent>)
    ensures StatusInv(RunAgent(InitAgent(w), events))
  {
    hide StepAgent, StatusInv, InitAgent;
    if events == [] {
      InitStatus(w);
    } else {
      var n := |events| - 1;
      RunStatus(w, events[..n]);
      StepStatus(RunAgent(InitAgent(w), events[..n]), events[n]);
    }
  }

  lemma InitStatus(w: World)
    ensures StatusInv(InitAgent(w))
    ensures forall part :: !EndedBadly(part, InitAgent(w))
  {
  }

  /** The result of a run is that of the join: there is none before the tasks are joined; and then it is Ok if all four tasks
      have ended well, and only then. */
  lemma StatusIsTheJoin(w: World, events: seq<AgentEvent>)
    ensures var a := RunAgent(InitAgent(w), events);
            && (a.status.None? <==>
                  a.main.AwaitingExec? || a.main.Spawning? || a.main.SendingStarted? || a.main.Joining?)
            && (a.status.Some? ==>
                  (a.status.value <==>
                     && a.exit == ExitEnded(true) && a.stdin.phase == StdinEnded(true)
                     && a.stdout.phase == CopyEnded(true) && a.stderr.phase == CopyEnded(true)))
  {
    hide RunAgent;
    RunStatus(w, events);
  }

  /** A part of the agent has ended badly if and only if one of its events has met an error. */
  lemma {:induction false} BadEndsHaveCauses(w: World, events: seq<AgentEvent>, part: Part)
    ensures EndedBadly(part, RunAgent(InitAgent(w), events)) <==>
              exists k | 0 <= k < |events| ::
                PartOf(events[k]) == part && MeetsError(RunAgent(InitAgent(w), events[..k]), events[k])
  {
    hide StepAgent, MeetsError, EndedBadly, InitAgent;
    if events == [] {
      InitStatus(w);
    } else {
      var n := |events| - 1;
      BadEndsHaveCauses(w, events[..n], part);
      RunStatus(w, events[..n]);
      StepStatus(RunAgent(InitAgent(w), events[..n]), events[n]);
      assert forall k | 0 <= k < n :: events[..n][k] == events[k] && events[..n][..k] == events[..k];
    }
  }
}
