/** `main` of the agent as an object, polled from the first receive to the final close. Every poll amounts to some steps
    of the state machine of `AgentSteps`, so what holds of all its runs holds of the program. */
module AgentProgram {
  import opened Basics
  import opened Connection
  import opened Source
  import Json
  import opened Messages
  import opened TxSteps
  import RxSteps
  import opened Tx
  import opened Rx
  import opened AgentSteps
  import opened AgentPolls
  import opened AgentParts
  import opened Runs
  import opened AgentJoin
  import opened EndToEnd
  import opened AgentTrace
  import opened AgentRun
  import opened AgentTheorems
  import opened AgentOutcomes
  import opened AgentVerdicts
  import opened AgentDeliveries

  predicate MainSends(main: MainPhase, f: SendFuture) {
    (main.SendingStarted? || main.SendingError? || main.Flushing? || main.ClosingFlush?) && main.send == f
  }

  function StillSending(main: MainPhase, f: SendFuture): MainPhase {
    match main
    case SendingStarted(pid, _) => SendingStarted(pid, f)
    case SendingError(text, _) => SendingError(text, f)
    case Flushing(_) => Flushing(f)
    case ClosingFlush(_) => ClosingFlush(f)
    case _ => main
  }

  /** Where the outcome of what it sends brings main. */
  function AfterMainSend(a: Agent, r: Result<(), TxError>, reason: Json.Text): Agent {
    match a.main
    case SendingStarted(_, _) => if r.Ok? then a.(main := Joining) else Fail(a, reason)
    case SendingError(_, _) => a.(main := Flushing(FLUSH))
    case Flushing(_) => a.(main := ClosingFlush(FLUSH))
    case ClosingFlush(_) => a.(main := if r.Ok? then ClosingTx(Draining) else Finished)
    case _ => a
  }

  /** What one turn of the future does to main: it stays where it is, or goes on as the outcome says. */
  ghost predicate TurnsTo(a: Agent, f: SendFuture, reason: Json.Text, a': Agent) {
    var t := SendTurn(Open(a.tx), f);
    var sent := a.(tx := a'.tx, trace := a'.trace);
    && t.tx == Open(a'.tx)
    && (t.result.None? || t.result == Some(Pending) ==> a' == sent.(main := StillSending(a.main, t.future)))
    && (t.result.Some? && t.result.value.Ready? ==> a' == AfterMainSend(sent, t.result.value.value, reason))
    && (t.result == Some(Pending) ==> MainWaits(a, SpawnPending))
  }

  lemma StartedTurn(a: Agent, f: SendFuture, reason: Json.Text)
    requires MainSends(a.main, f) && a.main.SendingStarted?
    ensures TurnsTo(a, f, reason, PollStarted(a, a.main.pid, f, reason))
  {
    hide TxSteps.PollSend, TxSteps.PollFlush, SendOne, Added;
  }

  lemma ErrorTurn(a: Agent, f: SendFuture, reason: Json.Text)
    requires MainSends(a.main, f) && a.main.SendingError?
    ensures TurnsTo(a, f, reason, PollError(a, a.main.text, f))
  {
    hide TxSteps.PollSend, TxSteps.PollFlush, SendOne, Added;
  }

  lemma LastFlushTurn(a: Agent, f: SendFuture, reason: Json.Text)
    requires MainSends(a.main, f) && (a.main.Flushing? || a.main.ClosingFlush?)
    ensures TurnsTo(a, f, reason, PollLastFlush(a, f))
  {
    hide TxSteps.PollSend, TxSteps.PollFlush, SendOne, Added;
  }

  lemma MainTurn(a: Agent, f: SendFuture, reason: Json.Text)
    requires MainSends(a.main, f)
    ensures TurnsTo(a, f, reason, StepAgent(a, MainPoll(SpawnPending, reason)))
  {
    hide PollStarted, PollError, PollLastFlush, TurnsTo, PollTask;
    match a.main
    case SendingStarted(_, _) => StartedTurn(a, f, reason);
    case SendingError(_, _) => ErrorTurn(a, f, reason);
    case Flushing(_) => LastFlushTurn(a, f, reason);
    case ClosingFlush(_) => LastFlushTurn(a, f, reason);
  }

  lemma MainSending(a: Agent, f: SendFuture, reason: Json.Text) returns (events: seq<AgentEvent>)
    requires MainSends(a.main, f) && |f.msgs| <= 1
    ensures var p := PollFuture(Open(a.tx), f);
            var a' := RunAgent(a, events);
            var sent := a.(tx := a'.tx, trace := a'.trace);
            && p.tx == Open(a'.tx) && |p.future.msgs| <= 1
            && match p.outcome
               case Pending =>
                 a' == sent.(main := StillSending(a.main, p.future)) && Stuck(AgentMachine(MainPart), a, events)
               case Ready(r) => a' == AfterMainSend(sent, r, reason)
  {
    hide StepAgent, MainWaits, SendTurn, Run, Stuck, SendOne, PollFuture, LockedSend, LockedFlush;
    var e := MainPoll(SpawnPending, reason);
    OneMessagePoll(Open(a.tx), f);
    MainTurn(a, f, reason);
    events := [e];
    RunOne(StepAgent, a, e);
    var t := SendTurn(Open(a.tx), f);
    var mid := StepAgent(a, e);
    if t.result.None? {
      MainTurn(mid, t.future, reason);
      events := [e] + [e];
      RunAppend(StepAgent, a, [e], [e]);
      RunOne(StepAgent, mid, e);
      if MainWaits(mid, SpawnPending) {
        StuckNow(AgentMachine(MainPart), mid, e);
        StuckLater(AgentMachine(MainPart), a, [e], [e]);
      }
    } else if MainWaits(a, SpawnPending) {
      StuckNow(AgentMachine(MainPart), a, e);
    }
  }

  datatype ProgramStage =
    | AwaitsExec
    | Spawns
    | SendsStarted(pid: u32)
    | Joins
    | SendsError(text: Json.Text)
    | Flushes
    | FlushesToClose
    | Closes(close: CloseStage)
    | Done

  function StepsLeft(stage: ProgramStage): nat {
    match stage
    case AwaitsExec => 8
    case Spawns => 7
    case SendsStarted(_) => 6
    case Joins => 5
    case SendsError(_) => 4
    case Flushes => 3
    case FlushesToClose => 2
    case Closes(_) => 1
    case Done => 0
  }

  predicate IsSending(stage: ProgramStage) {
    stage.SendsStarted? || stage.SendsError? || stage.Flushes? || stage.FlushesToClose?
  }

  /** `f` is the future that main waits for, if it waits for one. */
  function PhaseOf(stage: ProgramStage, f: SendFuture): MainPhase {
    match stage
    case AwaitsExec => AwaitingExec
    case Spawns => Spawning
    case SendsStarted(pid) => SendingStarted(pid, f)
    case Joins => Joining
    case SendsError(text) => SendingError(text, f)
    case Flushes => Flushing(f)
    case FlushesToClose => ClosingFlush(f)
    case Closes(close) => ClosingTx(close)
    case Done => Finished
  }

  /** The tasks are there from the start, but are polled only while they are joined. `model` is where the state machine
      is. */
  class Program {
    const tasks: Tasks
    const send: DoSend
    var stage: ProgramStage
    var status: Option<bool>
    ghost var model: Agent

    ghost function Repr(): set<object> {
      {this, send} + tasks.Repr()
    }

    ghost predicate Wired() {
      send.tx == tasks.tx && {this, send} !! tasks.Repr() && tasks.rx.reader.decode == Decode
    }

    /** The tasks are where the state machine is in `a`. */
    ghost predicate At(a: Agent)
      reads tasks.rx, tasks.Repr()
    {
      Wired() && tasks.Valid() && tasks.Shows(a)
    }

    ghost predicate Valid()
      reads this, send, tasks.rx, tasks.Repr()
    {
      && Wired()
      && (IsSending(stage) ==> |send.msgs| <= 1)
      && (!stage.Closes? && !stage.Done? ==> At(model))
      && model.main == PhaseOf(stage, send.State()) && model.status == status && model.tx == tasks.local.State()
    }

    /** Main goes on to wait for a new future; `a` is where the state machine was. */
    method Start(next: ProgramStage, bodies: seq<Bytes>, flush: bool, ghost a: Agent)
      requires At(a)
      requires IsSending(next) && |bodies| <= 1
      modifies this, send
      ensures Valid() && stage == next && status == old(status)
      ensures model == a.(main := PhaseOf(next, NewFuture(bodies, flush)), status := status)
    {
      hide Decode;
      send.Replace(bodies, flush);
      stage, model := next, a.(main := PhaseOf(next, NewFuture(bodies, flush)), status := status);
    }

    /** Main goes on to, or goes on with, something else than a future of its own. */
    method GoTo(next: ProgramStage, ghost a: Agent)
      requires At(a) && status == a.status && (next == AwaitsExec || next == Spawns || next == Joins)
      modifies this
      ensures Valid() && stage == next && model == a.(main := PhaseOf(next, FLUSH))
    {
      hide Decode, Tasks.Valid, Tasks.Repr;
      stage, model := next, a.(main := PhaseOf(next, FLUSH));
    }

    /** What went wrong is reported to the host. */
    method Fail(ghost a: Agent, reason: Json.Text)
      requires At(a)
      modifies this, send
      ensures Valid() && model == AgentSteps.Fail(a, reason) && stage == SendsError(reason)
    {
      hide Decode, Encode, Tasks.Valid, Tasks.Repr;
      status := Some(false);
      Start(SendsError(reason), [Encode(Error(reason))], false, a);
    }

    method AwaitExec() returns (moved: bool, ghost events: seq<AgentEvent>)
      requires Valid() && stage == AwaitsExec
      modifies Repr()
      ensures Valid() && model == RunAgent(old(model), events)
      ensures if moved then StepsLeft(stage) < StepsLeft(old(stage))
              else stage == old(stage) && Stuck(AgentMachine(MainPart), old(model), events)
    {
      hide RunAgent, Stuck, AgentMachine, RxSteps.PollRecv, Decode, Encode, LineBuffered, Tasks.Valid, Tasks.Repr,
        AgentSteps.Fail;
      var reason: Json.Text := *;
      events := [MainPoll(SpawnPending, reason)];
      AwaitStep(model, reason);
      ghost var a := model.(rx := RxSteps.PollRecv(model.rx, ExecFromMessage, Decode).local);
      var answer := tasks.RecvExec(model);
      assert At(a);
      hide Tasks.Shows, Program.At;
      moved := answer.Ready?;
      match answer
      case Pending => GoTo(AwaitsExec, a);
      case Ready(Ok(Some(exec))) =>
        tasks.SetLineBuffered(LineBuffered(exec), a);
        GoTo(Spawns, a.(lineBuffered := LineBuffered(exec)));
      case Ready(_) =>
        Fail(a, reason);
    }

    method Spawn() returns (moved: bool, ghost events: seq<AgentEvent>)
      requires Valid() && stage == Spawns
      modifies Repr()
      ensures Valid() && model == RunAgent(old(model), events)
      ensures if moved then StepsLeft(stage) < StepsLeft(old(stage))
              else stage == old(stage) && Stuck(AgentMachine(MainPart), old(model), events)
    {
      hide Run, Stuck, StepAgent, AgentMachine, Decode, Encode,
        PollAwait, PollStarted, PollJoin, PollError, PollLastFlush, PollClosingTx, Tasks.Valid, Tasks.Repr,
        AgentSteps.Fail;
      var reason: Json.Text := *;
      var spawn: SpawnResult := *;
      events := [MainPoll(spawn, reason)];
      MainStep(model, spawn, reason);
      moved := !spawn.SpawnPending?;
      match spawn
      case SpawnPending =>
      case SpawnFails => Fail(model, reason);
      case Spawned(pid) =>
        Start(SendsStarted(pid), [Encode(Started(pid))], false, model);
    }

    method PollSend() returns (moved: bool, ghost events: seq<AgentEvent>)
      requires Valid() && IsSending(stage)
      modifies Repr()
      ensures Valid() && model == RunAgent(old(model), events)
      ensures if moved then StepsLeft(stage) < StepsLeft(old(stage))
              else stage == old(stage) && Stuck(AgentMachine(MainPart), old(model), events)
    {
      hide RunAgent, Stuck, AgentMachine, Decode, Encode, PollFuture, Tasks.Valid, Tasks.Repr, AfterMainSend;
      var reason: Json.Text := *;
      events := MainSending(model, send.State(), reason);
      ghost var after := RunAgent(model, events);
      ghost var sent := model.(tx := after.tx, trace := after.trace);
      var outcome := tasks.PollMainSend(send, model);
      moved := outcome.Ready?;
      if moved {
        GoOn(sent, outcome.value, reason);
      } else {
        model := after;
      }
    }

    /** What is sent is sent, or failed; `a` is where the state machine was before that. */
    method GoOn(ghost a: Agent, r: Result<(), TxError>, reason: Json.Text)
      requires At(a)
      requires IsSending(stage) && (exists f :: a.main == PhaseOf(stage, f)) && status == a.status
      modifies Repr()
      ensures Valid() && model == AfterMainSend(a, r, reason) && StepsLeft(stage) < StepsLeft(old(stage))
    {
      hide Decode, Encode, Tasks.Valid, Tasks.Repr, AgentSteps.Fail, Tasks.Shows, Program.At, Program.Wired;
      match stage
      case SendsStarted(_) =>
        if r.Ok? {
          GoTo(Joins, a);
        } else {
          Fail(a, reason);
        }
      case SendsError(_) =>
        Start(Flushes, [], true, a);
      case Flushes =>
        Start(FlushesToClose, [], true, a);
      case FlushesToClose =>
        Close(a, r.Ok?);
    }

    /** The flush at the beginning of `close`, whose failure ends it, is over. */
    method Close(ghost a: Agent, flushed: bool)
      requires At(a) && status == a.status
      modifies Repr()
      ensures Valid() && stage == if flushed then Closes(Draining) else Done
      ensures model == a.(main := PhaseOf(stage, send.State()))
    {
      hide Decode, Tasks.Valid, Tasks.Repr;
      if flushed {
        tasks.Close(a);
        stage, model := Closes(Draining), a.(main := ClosingTx(Draining));
      } else {
        stage, model := Done, a.(main := Finished);
      }
    }

    /** Every task that has not ended has found what it needs not ready. */
    ghost predicate TasksWait(a: Agent, events: seq<AgentEvent>)
      reads tasks.Repr()
    {
      && (tasks.exit.stage.Over? || Stuck(AgentMachine(ExitPart), a, events))
      && (tasks.stdin.stage.Over? || Stuck(AgentMachine(StdinPart), a, events))
      && (tasks.stdout.stage.Ended? || Stuck(AgentMachine(StdoutPart), a, events))
      && (tasks.stderr.stage.Ended? || Stuck(AgentMachine(StderrPart), a, events))
    }

    method PollTasks() returns (moved: bool, ghost events: seq<AgentEvent>)
      requires Valid() && stage == Joins
      modifies Repr()
      ensures Valid() && model == RunAgent(old(model), events)
      ensures if moved then StepsLeft(stage) < StepsLeft(old(stage))
              else stage == Joins && Stuck(AgentMachine(MainPart), old(model), events) && TasksWait(old(model), events)
    {
      hide RunAgent, Stuck, AgentMachine, Decode, Encode, Tasks.Valid, Tasks.Repr, AgentSteps.Fail;
      ghost var before := model;
      var ended, steps := tasks.Poll(before);
      ghost var mid := RunAgent(before, steps);
      var reason: Json.Text := *;
      ghost var e := MainPoll(SpawnPending, reason);
      JoinStep(before, steps, reason);
      events := steps + [e];
      moved := ended;
      assert mid.tx == tasks.local.State();
      hide Tasks.Shows;
      if ended {
        EndJoin(mid, reason);
      } else {
        assert TasksWait(before, events);
        GoTo(Joins, mid);
      }
    }

    /** All tasks have ended, and their results are looked at. */
    method EndJoin(ghost a: Agent, reason: Json.Text)
      requires At(a)
      requires AllEnded(a) && status == a.status
      modifies this, send
      ensures Valid() && model == PollJoin(a, reason) && StepsLeft(stage) < StepsLeft(Joins)
    {
      hide Decode, Encode, Tasks.Valid, Tasks.Repr, AgentSteps.Fail;
      assert tasks.AllOk() == AllOk(a);
      hide Tasks.Shows;
      if tasks.AllOk() {
        status := Some(true);
        Start(Flushes, [], true, a);
      } else {
        Fail(a, reason);
      }
    }

    method PollClose() returns (moved: bool, ghost events: seq<AgentEvent>)
      requires Valid() && stage.Closes?
      modifies Repr()
      ensures Valid() && model == RunAgent(old(model), events)
      ensures if moved then stage == Done else stage.Closes? && Stuck(AgentMachine(MainPart), old(model), events)
    {
      hide Run, Stuck, StepAgent, AgentMachine, Decode, Encode, Tasks.Valid, Tasks.Shows, Tasks.Repr,
        PollAwait, PollSpawn, PollStarted, PollJoin, PollError, PollLastFlush;
      var reason: Json.Text := *;
      events := [MainPoll(SpawnPending, reason)];
      MainStep(model, SpawnPending, reason);
      model := PollClosingTx(model, stage.close);
      var close := tasks.PollLocalClose(stage.close);
      moved := close.Returned?;
      stage := if close.Returned? then Done else Closes(close);
    }

    method Turn() returns (moved: bool, ghost events: seq<AgentEvent>)
      requires Valid() && !stage.Done?
      modifies Repr()
      ensures Valid() && model == RunAgent(old(model), events)
      ensures if moved then StepsLeft(stage) < StepsLeft(old(stage))
              else !stage.Done? && Stuck(AgentMachine(MainPart), old(model), events)
      ensures !moved && stage.Joins? ==> TasksWait(old(model), events)
    {
      hide RunAgent, Stuck, AgentMachine, Decode, Tasks.Valid, Tasks.Shows, Tasks.Repr, Program.TasksWait;
      if stage.AwaitsExec? {
        moved, events := AwaitExec();
      } else if stage.Spawns? {
        moved, events := Spawn();
      } else if stage.Joins? {
        moved, events := PollTasks();
      } else if stage.Closes? {
        moved, events := PollClose();
      } else {
        moved, events := PollSend();
      }
    }

    /** One poll of the whole agent: on and on until something is not ready, or everything is done. */
    method Poll() returns (done: bool, ghost events: seq<AgentEvent>)
      requires Valid()
      modifies Repr()
      ensures Valid() && model == RunAgent(old(model), events) && done == stage.Done?
      ensures !done ==> Stuck(AgentMachine(MainPart), old(model), events)
      ensures stage.Joins? ==> TasksWait(old(model), events)
    {
      hide RunAgent, Stuck, AgentMachine, Decode, Program.Valid, Tasks.Repr;
      events := [];
      NoEvents(model);
      while !stage.Done?
        invariant Valid() && model == RunAgent(old(model), events)
        decreases StepsLeft(stage)
      {
        var moved, more := Turn();
        Later(old(model), events, more);
        events := events + more;
        if !moved {
          return false, events;
        }
      }
      done := true;
    }

    constructor (w: World)
      ensures Valid() && fresh(Repr()) && model == InitAgent(w)
    {
      hide Decode, Tasks.Valid, Tasks.Repr, Tasks.Shows;
      var tx, rx := NewEnds(w);
      var joined := new Tasks(tx, rx, w);
      tasks := joined;
      send := new DoSend(tx, [], false);
      stage, status, model := AwaitsExec, None, InitAgent(w);
    }
  }

  /** The two ends of the agent's connection. */
  method NewEnds(w: World) returns (tx: Handle, rx: RxLocal)
    ensures tx.local.Some? && rx.reader.decode == Decode
    ensures tx.local.value.State() == InitAgent(w).tx && rx.State() == InitAgent(w).rx
    ensures fresh(tx) && fresh(tx.local.value) && fresh(tx.local.value.writer)
    ensures fresh(rx.reader) && fresh(rx.reader.reader) && fresh(rx.msgs)
  {
    hide Decode;
    var writer := new Writer(w.writes, w.flushes, w.shutdowns);
    tx := new Handle(writer);
    var host := new Reader(w.host.unread, w.host.schedule);
    rx := new RxLocal(host, Decode);
  }

  lemma MainStep(a: Agent, spawn: SpawnResult, reason: Json.Text)
    ensures RunAgent(a, [MainPoll(spawn, reason)]) == PollMain(a, spawn, reason)
    ensures MainWaits(a, spawn) ==> Stuck(AgentMachine(MainPart), a, [MainPoll(spawn, reason)])
  {
    hide PollMain, MainWaits, Run, Stuck;
    var e := MainPoll(spawn, reason);
    RunOne(StepAgent, a, e);
    if MainWaits(a, spawn) {
      StuckNow(AgentMachine(MainPart), a, e);
    }
  }

  /** The agent in any surroundings, polled any number of times: its objects have gone through a run of the state machine,
      so what holds of all runs holds of what is written to its connection and to the child. */
  method RunProgram(w: World, polls: nat) returns (p: Program, ghost events: seq<AgentEvent>)
    ensures p.Valid() && p.model == RunAgent(InitAgent(w), events)
    ensures InLanguage(p.model.trace)
    ensures Preserves(OfStream(p.model.trace, StdoutStream), w.childOut.unread, p.model.lineBuffered)
    ensures Preserves(OfStream(p.model.trace, StderrStream), w.childErr.unread, p.model.lineBuffered)
    ensures p.tasks.local.writer.written <= Wire(Bodies(p.model.trace))
    ensures p.status == Some(true) ==>
              Complete(p.model.trace) && p.tasks.local.writer.written == Wire(Bodies(p.model.trace))
    ensures p.status.Some? ==> (p.status.value <==> AllOk(p.model))
    ensures p.stage.Done? ==> p.status.Some?
    ensures p.stage.Done? && !ConnectionFailed(InitAgent(w), p.model) ==>
              p.tasks.local.writer.written == Wire(Bodies(p.model.trace))
    ensures p.stage.Done? && Healthy(w, events) ==> p.status == Some(true)
  {
    hide ConnectionFailed, Healthy, AllOk, EndedBadly;
    hide RunAgent, InLanguage, Preserves, Complete, Wire, Bodies, OfStream, InitAgent, Stuck, Decode, Tasks.Repr;
    p := new Program(w);
    events := [];
    NoEvents(p.model);
    var n := 0;
    while n < polls
      invariant p.Valid() && fresh(p.Repr()) && p.model == RunAgent(InitAgent(w), events)
    {
      var done, more := p.Poll();
      Later(InitAgent(w), events, more);
      events := events + more;
      n := n + 1;
    }
    TraceLanguage(w, events);
    OutputPreserved(w, events);
    WrittenIsTrace(w, events);
    if p.status == Some(true) {
      SuccessfulRun(w, events);
    }
    RunStatus(w, events);
    StatusIs(p.model);
    EverythingIsDelivered(w, events);
    if Healthy(w, events) {
      HealthyRun(w, events);
    }
  }

  lemma StatusIs(a: Agent)
    requires StatusInv(a)
    ensures a.status.Some? ==> (a.status.value <==> AllOk(a))
    ensures a.main.Finished? ==> a.status.Some?
  {
    hide AllOk;
  }

  lemma Later(a: Agent, events: seq<AgentEvent>, more: seq<AgentEvent>)
    ensures RunAgent(a, events + more) == RunAgent(RunAgent(a, events), more)
    ensures forall part | Stuck(AgentMachine(part), RunAgent(a, events), more) ::
              Stuck(AgentMachine(part), a, events + more)
  {
    hide Stuck, Run, StepAgent;
    RunAppend(StepAgent, a, events, more);
    forall part | Stuck(AgentMachine(part), RunAgent(a, events), more)
      ensures Stuck(AgentMachine(part), a, events + more)
    {
      StuckLater(AgentMachine(part), a, events, more);
    }
  }

  lemma AwaitStep(a: Agent, reason: Json.Text)
    requires a.main == AwaitingExec
    ensures RunAgent(a, [MainPoll(SpawnPending, reason)]) == PollAwait(a, reason)
    ensures RxSteps.PollRecv(a.rx, ExecFromMessage, Decode).answer.Pending? ==>
              Stuck(AgentMachine(MainPart), a, [MainPoll(SpawnPending, reason)])
  {
    hide PollAwait, Run, Stuck, RxSteps.PollRecv, AgentMachine;
    MainStep(a, SpawnPending, reason);
  }

  /** A poll of the join, as steps: those of the tasks, and then a look at their results. */
  lemma JoinStep(a: Agent, steps: seq<AgentEvent>, reason: Json.Text)
    requires RunAgent(a, steps).main.Joining?
    ensures var mid := RunAgent(a, steps);
            var events := steps + [MainPoll(SpawnPending, reason)];
            && RunAgent(a, events) == PollJoin(mid, reason)
            && (!AllEnded(mid) ==> Stuck(AgentMachine(MainPart), a, events))
            && forall part | part != MainPart && Stuck(AgentMachine(part), a, steps) ::
                 Stuck(AgentMachine(part), a, events)
  {
    hide Stuck, Run, StepAgent, PollJoin, AllEnded;
    var mid, e := RunAgent(a, steps), MainPoll(SpawnPending, reason);
    MainStep(mid, SpawnPending, reason);
    RunAppend(StepAgent, a, steps, [e]);
    if !AllEnded(mid) {
      StuckLater(AgentMachine(MainPart), a, steps, [e]);
    }
    forall part | part != MainPart && Stuck(AgentMachine(part), a, steps)
      ensures Stuck(AgentMachine(part), a, steps + [e])
    {
      StaysStuck(AgentMachine(part), a, steps, [e]);
    }
  }
}
