/** How the polls of the tasks are steps of the whole agent: each task's machine is embedded in the agent's. */
module AgentParts {
  import opened Connection
  import Json
  import opened Messages
  import opened LineReader
  import opened TxSteps
  import RxSteps
  import opened AgentSteps
  import opened AgentPolls
  import opened OutputTasks
  import opened InputTasks
  import opened ExitTasks
  import opened Runs

  // ---------------------------------------------------------------------------------------------------------------
  // What the agent waits for
  // ---------------------------------------------------------------------------------------------------------------

  /** What main waits for is not ready, or not over. */
  predicate MainWaits(a: Agent, spawn: SpawnResult) {
    match a.main
    case AwaitingExec => RxSteps.PollRecv(a.rx, ExecFromMessage, Decode).answer.Pending?
    case Spawning => spawn.SpawnPending?
    case SendingStarted(_, send) => Waits(a.tx, send)
    case Joining => !AllEnded(a)
    case SendingError(_, send) => Waits(a.tx, send)
    case Flushing(send) => Waits(a.tx, send)
    case ClosingFlush(send) => Waits(a.tx, send)
    case ClosingTx(stage) => !PollClose(a.tx, stage).stage.Returned?
    case Finished => false
  }

  function StepsToGo(main: MainPhase): nat {
    match main
    case AwaitingExec => 8
    case Spawning => 7
    case SendingStarted(_, _) => 6
    case Joining => 5
    case SendingError(_, _) => 4
    case Flushing(_) => 3
    case ClosingFlush(_) => 2
    case ClosingTx(_) => 1
    case Finished => 0
  }

  function SendLeft(main: MainPhase): nat {
    match main
    case SendingStarted(_, send) => |send.msgs|
    case SendingError(_, send) => |send.msgs|
    case Flushing(send) => |send.msgs|
    case ClosingFlush(send) => |send.msgs|
    case _ => 0
  }

  /** A poll of main that is not kept waiting brings it nearer to its end. */
  lemma MainAdvances(a: Agent, spawn: SpawnResult, reason: Json.Text)
    requires !a.main.Finished? && !MainWaits(a, spawn)
    ensures var main' := PollMain(a, spawn, reason).main;
            || StepsToGo(main') < StepsToGo(a.main)
            || (StepsToGo(main') == StepsToGo(a.main) && SendLeft(main') < SendLeft(a.main))
  {
    hide RxSteps.PollRecv, Decode, Encode, LockedSend, LockedFlush, Added, NewFuture, LineBuffered, AllEnded, AllOk,
      PollClose;
    match a.main
    case AwaitingExec =>
    case Spawning =>
    case SendingStarted(_, _) =>
    case Joining =>
    case SendingError(_, _) =>
    case Flushing(_) =>
    case ClosingFlush(_) =>
    case ClosingTx(_) =>
    case Finished =>
  }

  function WatchView(a: Agent): WatchState {
    WatchState(a.tx, a.rx, a.exit, a.signals, [])
  }

  function FeedView(a: Agent): FeedState {
    FeedState(a.tx, a.rx, a.stdin, [])
  }

  function CopyView(a: Agent, task: OutputTask): CopyState {
    CopyState(a.tx, a.rx, task, [])
  }

  predicate AgentWaits(a: Agent, e: AgentEvent) {
    match e
    case MainPoll(spawn, _) => MainWaits(a, spawn)
    case KillPoll => false
    case ExitPoll(result) => WatchWaits(WatchView(a), WaitForChild(result))
    case StdinPoll => FeedWaits(FeedView(a))
    case StdoutPoll => CopyWaits(CopyView(a, a.stdout), a.lineBuffered)
    case StdoutHostPoll(_) => false
    case StderrPoll => CopyWaits(CopyView(a, a.stderr), a.lineBuffered)
    case StderrHostPoll(_) => false
  }

  /** The agent, seen by one part of it: the events of the others, and listening to the host, do not end its wait. */
  function AgentMachine(part: Part): Machine<Agent, AgentEvent> {
    Machine(
      StepAgent,
      (a: Agent, e: AgentEvent) => PartOf(e) == part && AgentWaits(a, e),
      (e: AgentEvent) => PartOf(e) != part || e.KillPoll? || e.StdoutHostPoll? || e.StderrHostPoll?)
  }

  // ---------------------------------------------------------------------------------------------------------------
  // The embeddings
  // ---------------------------------------------------------------------------------------------------------------

  /** What was added after the first `n` messages. */
  function After(added: seq<Message>, n: nat): seq<Message> {
    if n <= |added| then added[n..] else []
  }

  lemma AfterAppend(trace: seq<Message>, added: seq<Message>, more: seq<Message>, n: nat)
    requires n <= |added|
    ensures trace + After(added + more, n) == (trace + After(added, n)) + more
  {
  }

  lemma AfterNothing(trace: seq<Message>, added: seq<Message>)
    ensures trace + After(added, |added|) == trace
  {
  }

  // The output tasks

  function OutputPart(stream: Stream): Part {
    if stream == StderrStream then StderrPart else StdoutPart
  }

  function TaskOf(a: Agent, stream: Stream): OutputTask {
    if stream == StderrStream then a.stderr else a.stdout
  }

  function WithTask(a: Agent, stream: Stream, task: OutputTask): Agent {
    if stream == StderrStream then a.(stderr := task) else a.(stdout := task)
  }

  function PutCopy(a: Agent, stream: Stream, n: nat, c: CopyState): Agent {
    WithTask(a, stream, c.task).(tx := c.tx, rx := c.rx, trace := a.trace + After(c.added, n))
  }

  function AsOutput(stream: Stream, e: CopyEvent): AgentEvent {
    match e
    case CopyPoll => if stream == StderrStream then StderrPoll else StdoutPoll
    case HostPoll(closes) => if stream == StderrStream then StderrHostPoll(closes) else StdoutHostPoll(closes)
  }

  function OutputEvent(stream: Stream): CopyEvent -> AgentEvent {
    (e: CopyEvent) => AsOutput(stream, e)
  }

  lemma CopyStepPut(a: Agent, stream: Stream, n: nat, c: CopyState, e: CopyEvent)
    requires a.main.Joining? && n <= |c.added|
    ensures var c' := StepCopy(c, a.lineBuffered, e);
            n <= |c'.added| && PutCopy(a, stream, n, c') == StepAgent(PutCopy(a, stream, n, c), AsOutput(stream, e))
    ensures e == CopyPoll && CopyWaits(c, a.lineBuffered) ==> AgentWaits(PutCopy(a, stream, n, c), AsOutput(stream, e))
  {
    hide PollOutput, PollHostClose, Waits, PollPiece;
    if e == CopyPoll {
      AfterAppend(a.trace, c.added, PollOutput(c.tx, c.task, a.lineBuffered).added, n);
    }
  }

  lemma CopyAdds(c: CopyState, lineBuffered: bool, e: CopyEvent)
    ensures c.added <= StepCopy(c, lineBuffered, e).added
  {
    hide PollOutput, PollHostClose;
  }

  function CopyGoes(base: seq<Message>): CopyState -> bool {
    (c: CopyState) => base <= c.added
  }

  function CopyInto(a: Agent, stream: Stream, n: nat): CopyState -> Agent {
    (c: CopyState) => PutCopy(a, stream, n, c)
  }

  lemma CopyEmbeds(a: Agent, stream: Stream, base: seq<Message>)
    requires a.main.Joining?
    ensures Embeds(CopyMachine(a.lineBuffered), AgentMachine(OutputPart(stream)), CopyGoes(base),
                   CopyInto(a, stream, |base|), OutputEvent(stream))
  {
    hide StepCopy, StepAgent, AgentWaits, CopyWaits, PutCopy;
    forall c: CopyState, e: CopyEvent {:trigger StepCopy(c, a.lineBuffered, e)} | base <= c.added
      ensures base <= StepCopy(c, a.lineBuffered, e).added
      ensures PutCopy(a, stream, |base|, StepCopy(c, a.lineBuffered, e))
           == StepAgent(PutCopy(a, stream, |base|, c), AsOutput(stream, e))
      ensures e == CopyPoll && CopyWaits(c, a.lineBuffered) ==>
                AgentWaits(PutCopy(a, stream, |base|, c), AsOutput(stream, e))
    {
      CopyStepPut(a, stream, |base|, c, e);
      CopyAdds(c, a.lineBuffered, e);
    }
  }

  /** A run of an output task is a run of the agent that touches nothing else. */
  lemma CopyLifts(a: Agent, stream: Stream, c: CopyState, events: seq<CopyEvent>)
    requires a.main.Joining? && c.tx == a.tx && c.rx == a.rx && c.task == TaskOf(a, stream)
    ensures var c' := Run(CopyMachine(a.lineBuffered).step, c, events);
            RunAgent(a, Mapped(OutputEvent(stream), events)) == PutCopy(a, stream, |c.added|, c') && c.added <= c'.added
    ensures Stuck(CopyMachine(a.lineBuffered), c, events) ==>
              Stuck(AgentMachine(OutputPart(stream)), a, Mapped(OutputEvent(stream), events))
  {
    hide StepCopy, StepAgent, AgentWaits, CopyWaits, CopyMachine, Embeds, Run, Stuck;
    var m, big := CopyMachine(a.lineBuffered), AgentMachine(OutputPart(stream));
    var good, put, event := CopyGoes(c.added), CopyInto(a, stream, |c.added|), OutputEvent(stream);
    AfterNothing(a.trace, c.added);
    assert put(c) == a;
    CopyEmbeds(a, stream, c.added);
    RunEmbedded(m, big, good, put, event, c, events);
    if Stuck(m, c, events) {
      StuckEmbedded(m, big, good, put, event, c, events);
    }
  }

  // The stdin task

  function PutFeed(a: Agent, n: nat, c: FeedState): Agent {
    a.(tx := c.tx, rx := c.rx, stdin := c.task, trace := a.trace + After(c.added, n))
  }

  function FeedGoes(base: seq<Message>): FeedState -> bool {
    (c: FeedState) => base <= c.added
  }

  function FeedInto(a: Agent, n: nat): FeedState -> Agent {
    (c: FeedState) => PutFeed(a, n, c)
  }

  function AsStdin(e: FeedEvent): AgentEvent {
    StdinPoll
  }

  lemma FeedStepPut(a: Agent, n: nat, c: FeedState)
    requires a.main.Joining? && n <= |c.added|
    ensures c.added <= StepFeed(c).added && PutFeed(a, n, StepFeed(c)) == StepAgent(PutFeed(a, n, c), StdinPoll)
    ensures FeedWaits(c) ==> AgentWaits(PutFeed(a, n, c), StdinPoll)
  {
    hide PollStdin, Waits, RxSteps.PollRecv, Transmit, StdinFilter;
    AfterAppend(a.trace, c.added, PollStdin(c.tx, c.rx, c.task).added, n);
  }

  lemma FeedEmbeds(a: Agent, base: seq<Message>)
    requires a.main.Joining?
    ensures Embeds(FeedMachine(), AgentMachine(StdinPart), FeedGoes(base), FeedInto(a, |base|), AsStdin)
  {
    hide StepFeed, StepAgent, AgentWaits, FeedWaits, PutFeed;
    forall c: FeedState {:trigger StepFeed(c)} | base <= c.added
      ensures base <= StepFeed(c).added
      ensures PutFeed(a, |base|, StepFeed(c)) == StepAgent(PutFeed(a, |base|, c), StdinPoll)
      ensures FeedWaits(c) ==> AgentWaits(PutFeed(a, |base|, c), StdinPoll)
    {
      FeedStepPut(a, |base|, c);
    }
  }

  /** A run of the stdin task is a run of the agent that touches nothing else. */
  lemma FeedLifts(a: Agent, c: FeedState, events: seq<FeedEvent>)
    requires a.main.Joining? && c.tx == a.tx && c.rx == a.rx && c.task == a.stdin
    ensures var c' := Run(FeedMachine().step, c, events);
            RunAgent(a, Mapped(AsStdin, events)) == PutFeed(a, |c.added|, c') && c.added <= c'.added
    ensures Stuck(FeedMachine(), c, events) ==> Stuck(AgentMachine(StdinPart), a, Mapped(AsStdin, events))
  {
    hide StepFeed, StepAgent, AgentWaits, FeedWaits, FeedMachine, Embeds, Run, Stuck;
    var m, big, good, put := FeedMachine(), AgentMachine(StdinPart), FeedGoes(c.added), FeedInto(a, |c.added|);
    AfterNothing(a.trace, c.added);
    assert put(c) == a;
    FeedEmbeds(a, c.added);
    RunEmbedded(m, big, good, put, AsStdin, c, events);
    if Stuck(m, c, events) {
      StuckEmbedded(m, big, good, put, AsStdin, c, events);
    }
  }

  // The exit task

  function PutWatch(a: Agent, n: nat, c: WatchState): Agent {
    a.(tx := c.tx, rx := c.rx, exit := c.phase, signals := c.signals, trace := a.trace + After(c.added, n))
  }

  function WatchGoes(base: seq<Message>): WatchState -> bool {
    (c: WatchState) => base <= c.added
  }

  function WatchInto(a: Agent, n: nat): WatchState -> Agent {
    (c: WatchState) => PutWatch(a, n, c)
  }

  function AsExit(e: WatchEvent): AgentEvent {
    match e
    case ListenForKill => KillPoll
    case WaitForChild(result) => ExitPoll(result)
  }

  lemma WatchStepPut(a: Agent, n: nat, c: WatchState, e: WatchEvent)
    requires a.main.Joining? && n <= |c.added|
    ensures c.added <= StepWatch(c, e).added
    ensures PutWatch(a, n, StepWatch(c, e)) == StepAgent(PutWatch(a, n, c), AsExit(e))
    ensures WatchWaits(c, e) ==> AgentWaits(PutWatch(a, n, c), AsExit(e))
  {
    hide PollKill, PollExit, Waits;
    if e.WaitForChild? {
      AfterAppend(a.trace, c.added, PollExit(c.tx, c.phase, e.result).added, n);
    }
  }

  lemma WatchEmbeds(a: Agent, base: seq<Message>)
    requires a.main.Joining?
    ensures Embeds(WatchMachine(), AgentMachine(ExitPart), WatchGoes(base), WatchInto(a, |base|), AsExit)
  {
    hide StepWatch, StepAgent, AgentWaits, WatchWaits, PutWatch;
    forall c: WatchState, e: WatchEvent {:trigger StepWatch(c, e)} | base <= c.added
      ensures base <= StepWatch(c, e).added
      ensures PutWatch(a, |base|, StepWatch(c, e)) == StepAgent(PutWatch(a, |base|, c), AsExit(e))
      ensures WatchWaits(c, e) ==> AgentWaits(PutWatch(a, |base|, c), AsExit(e))
    {
      WatchStepPut(a, |base|, c, e);
    }
  }

  /** A run of the exit task is a run of the agent that touches nothing else. */
  lemma WatchLifts(a: Agent, c: WatchState, events: seq<WatchEvent>)
    requires a.main.Joining? && c.tx == a.tx && c.rx == a.rx && c.phase == a.exit && c.signals == a.signals
    ensures var c' := Run(WatchMachine().step, c, events);
            RunAgent(a, Mapped(AsExit, events)) == PutWatch(a, |c.added|, c') && c.added <= c'.added
    ensures Stuck(WatchMachine(), c, events) ==> Stuck(AgentMachine(ExitPart), a, Mapped(AsExit, events))
  {
    hide StepWatch, StepAgent, AgentWaits, WatchWaits, WatchMachine, Embeds, Run, Stuck;
    var m, big, good, put := WatchMachine(), AgentMachine(ExitPart), WatchGoes(c.added), WatchInto(a, |c.added|);
    AfterNothing(a.trace, c.added);
    assert put(c) == a;
    WatchEmbeds(a, c.added);
    RunEmbedded(m, big, good, put, AsExit, c, events);
    if Stuck(m, c, events) {
      StuckEmbedded(m, big, good, put, AsExit, c, events);
    }
  }
}
