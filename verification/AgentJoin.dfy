/** The four tasks of the agent as one object over the shared handles: a poll of the join polls each of them, and is a run
    of the whole agent. */
module AgentJoin {
  import opened Basics
  import opened Connection
  import opened Messages
  import opened TxSteps
  import RxSteps
  import opened Tx
  import opened Rx
  import opened AgentSteps
  import opened OutputTasks
  import opened InputTasks
  import opened ExitTasks
  import opened AgentParts
  import opened Runs

  /** The events are all of one part of the agent. */
  ghost predicate Only(part: Part, events: seq<AgentEvent>) {
    forall j | 0 <= j < |events| :: PartOf(events[j]) == part
  }

  ghost predicate SameMain(a: Agent, a': Agent) {
    a'.main == a.main && a'.status == a.status && a'.lineBuffered == a.lineBuffered
  }

  /** The four tasks, joined; `local` is what the handle holds until it is closed. */
  class Tasks {
    const tx: Handle
    const local: TxLocal
    const rx: RxLocal
    const exit: ExitWatch
    const stdin: StdinCopy
    const stdout: CopyTask
    const stderr: CopyTask

    ghost function Common(): set<object> {
      {tx, local, local.writer, rx.reader, rx.reader.reader, rx.msgs}
    }

    ghost predicate Apart() {
      && exit.Repr() !! Common() && stdin.Repr() !! Common() && stdout.Repr() !! Common() && stderr.Repr() !! Common()
      && exit.Repr() !! stdin.Repr() && exit.Repr() !! stdout.Repr() && exit.Repr() !! stderr.Repr()
      && stdin.Repr() !! stdout.Repr() && stdin.Repr() !! stderr.Repr() && stdout.Repr() !! stderr.Repr()
    }

    ghost function Repr(): set<object> {
      Common() + exit.Repr() + stdin.Repr() + stdout.Repr() + stderr.Repr()
    }

    ghost predicate Valid()
      reads Repr()
    {
      && tx.local == Some(local) && Apart()
      && exit.tx == stdin.tx == stdout.tx == stderr.tx == tx
      && exit.rx == stdin.rx == stdout.rx == stderr.rx == rx
      && stdout.stream == StdoutStream && stderr.stream == StderrStream
      && exit.Valid() && stdin.Valid() && stdout.Valid() && stderr.Valid()
    }

    /** The objects are where the state machine is. */
    ghost predicate Shows(a: Agent)
      reads rx, Repr()
    {
      && a.tx == local.State() && a.rx == rx.State()
      && a.exit == exit.Phase() && a.signals == exit.signals && a.stdin == stdin.Task()
      && a.stdout == stdout.Task() && a.stderr == stderr.Task()
      && a.lineBuffered == stdout.lineBuffered == stderr.lineBuffered
    }

    constructor (tx: Handle, rx: RxLocal, w: World)
      requires tx.local.Some? && rx.reader.decode == Decode
      ensures Valid() && this.tx == tx && this.rx == rx && tx.local == Some(local)
      ensures allocated(Repr()) && forall o <- Repr() :: o in Common() || fresh(o)
      ensures local.State() == InitAgent(w).tx && rx.State() == InitAgent(w).rx ==> Shows(InitAgent(w))
    {
      hide Decode, ExitWatch.Repr, StdinCopy.Repr, CopyTask.Repr;
      this.tx, this.rx, local := tx, rx, tx.local.value;
      exit := new ExitWatch(tx, rx);
      stdin := new StdinCopy(w.childIn, tx, rx);
      stdout := new CopyTask(StdoutStream, w.childOut, tx, rx);
      stderr := new CopyTask(StderrStream, w.childErr, tx, rx);
    }

    method RecvExec(ghost a: Agent) returns (answer: Poll<Result<Option<Exec>, Framing.RxError>>)
      requires Valid() && Shows(a) && rx.reader.decode == Decode
      modifies Repr()
      ensures Valid()
      ensures var p := RxSteps.PollRecv(a.rx, ExecFromMessage, Decode);
              answer == p.answer && Shows(a.(rx := p.local))
    {
      AgentFilters();
      hide RxSteps.PollRecv, Decode, ExecFromMessage, Disjoint;
      answer := rx.PollRecv(ExecFromMessage);
    }

    method SetLineBuffered(lineBuffered: bool, ghost a: Agent)
      requires Valid() && Shows(a)
      modifies Repr()
      ensures Valid() && Shows(a.(lineBuffered := lineBuffered))
    {
      hide Decode;
      stdout.lineBuffered := lineBuffered;
      stderr.lineBuffered := lineBuffered;
    }

    /** A poll of what main sends. */
    method PollMainSend(send: DoSend, ghost a: Agent) returns (outcome: Outcome)
      requires Valid() && Shows(a) && send.tx == tx && send !in Repr()
      modifies send, Repr()
      ensures Valid()
      ensures var p := PollFuture(Open(a.tx), old(send.State()));
              && p.outcome == outcome && p.future == send.State()
              && p.tx.Open? && Shows(a.(tx := p.tx.local))
    {
      hide Decode, PollFuture;
      outcome := send.Poll();
    }

    method Close(ghost a: Agent)
      requires Valid() && Shows(a)
      modifies Repr()
      ensures local.State() == a.tx
    {
      hide Decode;
      var taken := tx.Take();
    }

    /** One poll of closing what the handle held. */
    method PollLocalClose(stage: CloseStage) returns (stage': CloseStage)
      modifies Repr()
      ensures PolledClose(local.State(), stage') == PollClose(old(local.State()), stage)
    {
      stage' := local.PollClose(stage);
    }

    method PollExit(ghost a: Agent) returns (ghost events: seq<AgentEvent>)
      requires Valid() && Shows(a) && a.main.Joining?
      modifies exit.Repr(), Common()
      ensures Valid() && Shows(RunAgent(a, events)) && SameMain(a, RunAgent(a, events)) && Only(ExitPart, events)
      ensures exit.stage.Over? || Stuck(AgentMachine(ExitPart), a, events)
    {
      hide RunAgent, AgentMachine, WatchMachine, Run, Stuck, Decode;
      ghost var before := exit.State();
      var r, steps := exit.Poll();
      WatchLifts(a, before, steps);
      events := Mapped(AsExit, steps);
    }

    method PollStdin(ghost a: Agent) returns (ghost events: seq<AgentEvent>)
      requires Valid() && Shows(a) && a.main.Joining?
      modifies stdin.Repr(), Common()
      ensures Valid() && Shows(RunAgent(a, events)) && SameMain(a, RunAgent(a, events)) && Only(StdinPart, events)
      ensures stdin.stage.Over? || Stuck(AgentMachine(StdinPart), a, events)
    {
      hide RunAgent, AgentMachine, FeedMachine, Run, Stuck, Decode;
      ghost var before := stdin.State();
      var r, steps := stdin.Poll();
      FeedLifts(a, before, steps);
      events := Mapped(AsStdin, steps);
    }

    method PollStdout(ghost a: Agent) returns (ghost events: seq<AgentEvent>)
      requires Valid() && Shows(a) && a.main.Joining?
      modifies stdout.Repr(), Common()
      ensures Valid() && Shows(RunAgent(a, events)) && SameMain(a, RunAgent(a, events)) && Only(StdoutPart, events)
      ensures stdout.stage.Ended? || Stuck(AgentMachine(StdoutPart), a, events)
    {
      hide RunAgent, AgentMachine, CopyMachine, Run, Stuck, Decode;
      ghost var before := stdout.State();
      var r, steps := stdout.Poll();
      CopyLifts(a, StdoutStream, before, steps);
      events := Mapped(OutputEvent(StdoutStream), steps);
    }

    method PollStderr(ghost a: Agent) returns (ghost events: seq<AgentEvent>)
      requires Valid() && Shows(a) && a.main.Joining?
      modifies stderr.Repr(), Common()
      ensures Valid() && Shows(RunAgent(a, events)) && SameMain(a, RunAgent(a, events)) && Only(StderrPart, events)
      ensures stderr.stage.Ended? || Stuck(AgentMachine(StderrPart), a, events)
    {
      hide RunAgent, AgentMachine, CopyMachine, Run, Stuck, Decode;
      ghost var before := stderr.State();
      var r, steps := stderr.Poll();
      CopyLifts(a, StderrStream, before, steps);
      events := Mapped(OutputEvent(StderrStream), steps);
    }

    predicate AllOk()
      reads exit, stdin, stdout, stderr
    {
      && exit.stage == ExitTasks.Over(true) && stdin.stage == InputTasks.Over(true)
      && stdout.stage == Ended(true) && stderr.stage == Ended(true)
    }

    method PollExitAndStdin(ghost a: Agent) returns (ghost e1: seq<AgentEvent>, ghost e2: seq<AgentEvent>)
      requires Valid() && Shows(a) && a.main.Joining?
      modifies exit.Repr(), stdin.Repr(), Common()
      ensures Valid() && Only(ExitPart, e1) && Only(StdinPart, e2)
      ensures var a1 := RunAgent(a, e1);
              var a2 := RunAgent(a1, e2);
              && Shows(a2) && SameMain(a, a2)
              && (exit.stage.Over? || Stuck(AgentMachine(ExitPart), a, e1))
              && (stdin.stage.Over? || Stuck(AgentMachine(StdinPart), a1, e2))
    {
      hide RunAgent, Stuck, AgentMachine, Decode, Only, Tasks.Shows;
      e1 := PollExit(a);
      e2 := PollStdin(RunAgent(a, e1));
    }

    method PollOutputs(ghost a: Agent) returns (ghost e1: seq<AgentEvent>, ghost e2: seq<AgentEvent>)
      requires Valid() && Shows(a) && a.main.Joining?
      modifies stdout.Repr(), stderr.Repr(), Common()
      ensures Valid() && Only(StdoutPart, e1) && Only(StderrPart, e2)
      ensures var a1 := RunAgent(a, e1);
              var a2 := RunAgent(a1, e2);
              && Shows(a2) && SameMain(a, a2)
              && (stdout.stage.Ended? || Stuck(AgentMachine(StdoutPart), a, e1))
              && (stderr.stage.Ended? || Stuck(AgentMachine(StderrPart), a1, e2))
    {
      hide RunAgent, Stuck, AgentMachine, Decode, Only, Tasks.Shows;
      e1 := PollStdout(a);
      e2 := PollStderr(RunAgent(a, e1));
    }

    /** One poll of the join: every task that has not ended, in the order of the source, until it cannot go on. */
    method Poll(ghost a: Agent) returns (ended: bool, ghost events: seq<AgentEvent>)
      requires Valid() && Shows(a) && a.main.Joining?
      modifies Repr()
      ensures Valid() && Shows(RunAgent(a, events)) && SameMain(a, RunAgent(a, events))
      ensures ended == AllEnded(RunAgent(a, events))
      ensures exit.stage.Over? || Stuck(AgentMachine(ExitPart), a, events)
      ensures stdin.stage.Over? || Stuck(AgentMachine(StdinPart), a, events)
      ensures stdout.stage.Ended? || Stuck(AgentMachine(StdoutPart), a, events)
      ensures stderr.stage.Ended? || Stuck(AgentMachine(StderrPart), a, events)
    {
      hide RunAgent, Stuck, AgentMachine, Decode, Only;
      ghost var e1, e2 := PollExitAndStdin(a);
      ghost var e3, e4 := PollOutputs(RunAgent(RunAgent(a, e1), e2));
      events := e1 + e2 + e3 + e4;
      OneAfterAnother(a, e1, e2, e3, e4);
      ended := exit.stage.Over? && stdin.stage.Over? && stdout.stage.Ended? && stderr.stage.Ended?;
    }
  }

  lemma OneAfterAnother(
    a: Agent, e1: seq<AgentEvent>, e2: seq<AgentEvent>, e3: seq<AgentEvent>, e4: seq<AgentEvent>)
    requires Only(ExitPart, e1) && Only(StdinPart, e2) && Only(StdoutPart, e3) && Only(StderrPart, e4)
    ensures var a1 := RunAgent(a, e1);
            var a2 := RunAgent(a1, e2);
            var a3 := RunAgent(a2, e3);
            var events := e1 + e2 + e3 + e4;
            && RunAgent(a, events) == RunAgent(a3, e4)
            && (Stuck(AgentMachine(ExitPart), a, e1) ==> Stuck(AgentMachine(ExitPart), a, events))
            && (Stuck(AgentMachine(StdinPart), a1, e2) ==> Stuck(AgentMachine(StdinPart), a, events))
            && (Stuck(AgentMachine(StdoutPart), a2, e3) ==> Stuck(AgentMachine(StdoutPart), a, events))
            && (Stuck(AgentMachine(StderrPart), a3, e4) ==> Stuck(AgentMachine(StderrPart), a, events))
  {
    hide Run, Stuck, AgentMachine, StepAgent;
    RunAppend(StepAgent, a, e1, e2);
    RunAppend(StepAgent, a, e1 + e2, e3);
    RunAppend(StepAgent, a, e1 + e2 + e3, e4);
    var events := e1 + e2 + e3 + e4;
    Amid(ExitPart, a, [], e1, e2 + e3 + e4);
    Amid(StdinPart, a, e1, e2, e3 + e4);
    Amid(StdoutPart, a, e1 + e2, e3, e4);
    Amid(StderrPart, a, e1 + e2 + e3, e4, []);
    assert [] + e1 + (e2 + e3 + e4) == events && e1 + e2 + (e3 + e4) == events && events + [] == events;
    NoEvents(a);
  }

  lemma NoEvents(a: Agent)
    ensures RunAgent(a, []) == a
  {
    hide StepAgent;
  }

  /** A wait of one part lasts while others go on. */
  lemma Amid(part: Part, a: Agent, x: seq<AgentEvent>, y: seq<AgentEvent>, z: seq<AgentEvent>)
    requires forall j | 0 <= j < |z| :: PartOf(z[j]) != part
    ensures Stuck(AgentMachine(part), RunAgent(a, x), y) ==> Stuck(AgentMachine(part), a, x + y + z)
  {
    hide Stuck, Run, StepAgent;
    var m := AgentMachine(part);
    if Stuck(m, RunAgent(a, x), y) {
      StuckLater(m, a, x, y);
      StaysStuck(m, a, x + y, z);
    }
  }
}
