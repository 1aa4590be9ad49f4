/** Whole runs of the agent and their surroundings: what a bad end comes from, what a run without failures comes to, and what
    has been done when a part is through. */
module AgentVerdicts {
  import opened Basics
  import opened Scripts
  import opened Connection
  import Json
  import opened Source
  import opened Messages
  import opened TxSteps
  import opened Framing
  import RxSteps
  import opened EndToEnd
  import opened TxOutcomes
  import opened AgentSteps
  import opened AgentTrace
  import opened AgentRun
  import opened AgentTheorems
  import opened AgentOutcomes
  import opened AgentFaults

  // ---------------------------------------------------------------------------------------------------------------
  // Failures of the surroundings between two states
  // ---------------------------------------------------------------------------------------------------------------

  predicate ConnectionFailed(s: Agent, a: Agent) {
    !Clean(s.tx.sink, a.tx.sink)
  }

  predicate FeedFailed(s: Agent, a: Agent) {
    AnyFatal(Used(s.stdin.child.writes, a.stdin.child.writes))
  }

  predicate OutFailed(s: Agent, a: Agent) {
    ReadBreaks in Used(OutSchedule(s), OutSchedule(a))
  }

  predicate ErrFailed(s: Agent, a: Agent) {
    ReadBreaks in Used(ErrSchedule(s), ErrSchedule(a))
  }

  /** Reading from the host has failed, or the host sends something malformed. */
  predicate HostFailed(s: Agent, a: Agent) {
    ReadBreaks in Used(HostSchedule(s), HostSchedule(a)) || Malformed in RxSteps.Log(s.rx, Decode)
  }

  lemma UsesAppend(s: Agent, a: Agent, b: Agent)
    requires UsesMore(s, a) && UsesMore(a, b)
    ensures UsesMore(s, b)
    ensures ConnectionFailed(s, b) <==> ConnectionFailed(s, a) || ConnectionFailed(a, b)
    ensures FeedFailed(s, b) <==> FeedFailed(s, a) || FeedFailed(a, b)
    ensures OutFailed(s, b) <==> OutFailed(s, a) || OutFailed(a, b)
    ensures ErrFailed(s, b) <==> ErrFailed(s, a) || ErrFailed(a, b)
    ensures HostFailed(s, a) || HostFailed(a, b) ==> HostFailed(s, b)
  {
    hide RxSteps.Log, Decode, Clean, SinkRemains, Used, Remains, AnyFatal;
    CleanAppend(s.tx.sink, a.tx.sink, b.tx.sink);
    FatalAppend(s.stdin.child.writes, a.stdin.child.writes, b.stdin.child.writes);
    UsedAppend(OutSchedule(s), OutSchedule(a), OutSchedule(b));
    UsedAppend(ErrSchedule(s), ErrSchedule(a), ErrSchedule(b));
    UsedAppend(HostSchedule(s), HostSchedule(a), HostSchedule(b));
  }

  lemma FatalAppend(a: seq<WriteAnswer>, b: seq<WriteAnswer>, c: seq<WriteAnswer>)
    requires Remains(a, b) && Remains(b, c)
    ensures Remains(a, c)
    ensures AnyFatal(Used(a, c)) <==> AnyFatal(Used(a, b)) || AnyFatal(Used(b, c))
  {
    UsedAppend(a, b, c);
    hide Used, Remains, IsFatal;
    var u, v := Used(a, b), Used(b, c);
    assert forall w :: w in u + v <==> w in u || w in v;
  }

  /** No `exec` is in what the host sends. */
  ghost predicate NoExec(s: Agent) {
    RxSteps.Wanted(RxSteps.Log(s.rx, Decode), ExecFromMessage) == []
  }

  /** What a bad end comes from. */
  ghost predicate Explains(part: Part, s: Agent, a: Agent, events: seq<AgentEvent>) {
    match part
    case MainPart =>
      || HostFailed(s, a) || ConnectionFailed(s, a) || NoExec(s)
      || (exists reason :: MainPoll(SpawnFails, reason) in events)
      || (AllEnded(a) && !AllOk(a))
    case ExitPart => HostFailed(s, a) || ConnectionFailed(s, a) || ExitPoll(WaitFails) in events
    case StdinPart => HostFailed(s, a) || ConnectionFailed(s, a) || FeedFailed(s, a)
    case StdoutPart => ConnectionFailed(s, a) || OutFailed(s, a) || StdoutHostPoll(false) in events
    case StderrPart => ConnectionFailed(s, a) || ErrFailed(s, a) || StderrHostPoll(false) in events
  }

  // ---------------------------------------------------------------------------------------------------------------
  // The exec message
  // ---------------------------------------------------------------------------------------------------------------

  function ExecsLeft(a: Agent): seq<Exec> {
    RxSteps.Wanted(RxSteps.Log(a.rx, Decode), ExecFromMessage)
  }

  predicate HasStarted(trace: seq<Message>) {
    trace != [] && trace[0].Started?
  }

  /** The first `exec` that the host sends is obeyed. */
  ghost predicate Obeys(s: Agent, a: Agent) {
    ExecsLeft(s) != [] && (a.lineBuffered <==> ExecsLeft(s)[0].lineBufferedIo != Some(false))
  }

  ghost predicate ExecInv(s: Agent, a: Agent) {
    && (a.main.AwaitingExec? ==> ExecsLeft(a) == ExecsLeft(s))
    && (a.main.Spawning? || a.main.SendingStarted? || HasStarted(a.trace) ==> Obeys(s, a))
  }

  lemma AwaitExecInv(s: Agent, a: Agent, reason: Json.Text)
    requires ExecInv(s, a) && a.main.AwaitingExec? && a.trace == []
    ensures ExecInv(s, PollAwait(a, reason))
    ensures RxSteps.PollRecv(a.rx, ExecFromMessage, Decode).answer == Ready(Ok(None)) ==> NoExec(s)
  {
    hide RxSteps.PollRecv, RxSteps.Log, RxSteps.Wanted, Decode, SendOne, ExecFromMessage, Disjoint;
    AgentFilters();
    RxSteps.RecvTakesOwn(a.rx, ExecFromMessage, Decode);
    var p := RxSteps.PollRecv(a.rx, ExecFromMessage, Decode);
    assert ExecsLeft(a) == RxSteps.ValueOf(p.answer) + RxSteps.Wanted(RxSteps.Log(p.local, Decode), ExecFromMessage);
  }

  lemma MainKeepsMode(a: Agent, spawn: SpawnResult, reason: Json.Text)
    requires !a.main.AwaitingExec?
    ensures var a' := PollMain(a, spawn, reason);
            && a'.lineBuffered == a.lineBuffered && !a'.main.AwaitingExec?
            && (a'.main.Spawning? || a'.main.SendingStarted? ==> a.main.Spawning? || a.main.SendingStarted?)
  {
    hide SendTurn, SendOne, Added, TxAfter, AllEnded, AllOk, PollClose;
  }

  lemma MainExecInv(s: Agent, a: Agent, w: World, spawn: SpawnResult, reason: Json.Text)
    requires ExecInv(s, a) && Inv(a, w)
    ensures ExecInv(s, PollMain(a, spawn, reason))
  {
    hide Inv, ExecsLeft, PollMain;
    if a.main.AwaitingExec? {
      AwaitsWithoutTrace(a, w);
      AwaitIsMain(a, spawn, reason);
      AwaitExecInv(s, a, reason);
    } else {
      MainKeepsMode(a, spawn, reason);
      MainAdds(a, spawn, reason);
      var trace, trace' := a.trace, PollMain(a, spawn, reason).trace;
      if trace == [] && HasStarted(trace') {
        assert trace'[0] in trace'[|trace|..];
      }
    }
  }

  lemma AwaitIsMain(a: Agent, spawn: SpawnResult, reason: Json.Text)
    requires a.main.AwaitingExec?
    ensures PollMain(a, spawn, reason) == PollAwait(a, reason)
  {
    hide PollAwait;
  }

  lemma AwaitsWithoutTrace(a: Agent, w: World)
    requires Inv(a, w)
    ensures a.main.AwaitingExec? ==> a.trace == []
    ensures a.main.Joining? ==> HasStarted(a.trace)
  {
    hide Linked, TasksInv, WorldInv;
  }

  lemma TaskKeepsMode(a: Agent, e: AgentEvent)
    ensures PollTask(a, e).main == a.main && PollTask(a, e).lineBuffered == a.lineBuffered
    ensures a.trace <= PollTask(a, e).trace
    ensures PollTask(a, e).status == a.status
  {
    hide PollKill, PollExit, PollStdin, PollOutput, PollHostClose;
  }

  lemma StepExecInv(s: Agent, a: Agent, w: World, e: AgentEvent)
    requires ExecInv(s, a) && Inv(a, w)
    ensures ExecInv(s, StepAgent(a, e))
  {
    hide Inv, ExecsLeft, PollMain, PollTask;
    if e.MainPoll? {
      MainExecInv(s, a, w, e.spawn, e.reason);
    } else if a.main.Joining? {
      AwaitsWithoutTrace(a, w);
      TaskKeepsMode(a, e);
    }
  }

  // ---------------------------------------------------------------------------------------------------------------
  // What every run keeps
  // ---------------------------------------------------------------------------------------------------------------

  /** Failures are not passed over: before the result, one of the connection has ended a task; one of a pipe of the child has
      ended the task on it. */
  ghost predicate NotPassedOver(s: Agent, a: Agent) {
    && (Unfinished(a.main) && ConnectionFailed(s, a) ==> exists part | part != MainPart :: EndedBadly(part, a))
    && (FeedFailed(s, a) ==> EndedBadly(StdinPart, a))
    && (OutFailed(s, a) ==> EndedBadly(StdoutPart, a))
    && (ErrFailed(s, a) ==> EndedBadly(StderrPart, a))
  }

  ghost predicate FaultInv(s: Agent, a: Agent, events: seq<AgentEvent>) {
    && UsesMore(s, a) && NotPassedOver(s, a) && ExecInv(s, a)
    && forall part :: EndedBadly(part, a) ==> Explains(part, s, a, events)
  }

  lemma ExplainsStill(part: Part, s: Agent, a: Agent, events: seq<AgentEvent>, e: AgentEvent)
    requires UsesMore(s, a) && EndedBadly(part, a) && Explains(part, s, a, events) && StatusInv(a)
    ensures Explains(part, s, StepAgent(a, e), events + [e])
  {
    hide StepOk, UsesMore, StepAgent, HostFailed, ConnectionFailed, FeedFailed, OutFailed, ErrFailed, NoExec;
    StepUses(a, e);
    var a' := StepAgent(a, e);
    StepOkUses(a, e);
    UsesAppend(s, a, a');
    if part == MainPart {
      StillEnded(a, e);
      if reason :| MainPoll(SpawnFails, reason) in events {
        assert MainPoll(SpawnFails, reason) in events + [e];
      }
    }
  }

  lemma StepOkUses(a: Agent, e: AgentEvent)
    requires StepOk(a, e)
    ensures UsesMore(a, StepAgent(a, e)) && IsMet(a, e, StepAgent(a, e))
    ensures MeetsError(a, e) ==> ComesFrom(a, e, StepAgent(a, e))
  {
    hide UsesMore, IsMet, MeetsError, ComesFrom, StepAgent;
  }

  /** After the result the tasks stay as they are. */
  lemma StillEnded(a: Agent, e: AgentEvent)
    requires a.status == Some(false) && StatusInv(a)
    ensures AllEnded(StepAgent(a, e)) <==> AllEnded(a)
    ensures AllOk(StepAgent(a, e)) <==> AllOk(a)
  {
    hide PollMain, PollTask;
    if e.MainPoll? {
      MainSparesTasks(a, e.spawn, e.reason);
    }
  }

  lemma ExplainsNow(s: Agent, a: Agent, w: World, events: seq<AgentEvent>, e: AgentEvent)
    requires UsesMore(s, a) && MeetsError(a, e) && ExecInv(s, a) && Inv(a, w)
    ensures Explains(PartOf(e), s, StepAgent(a, e), events + [e])
  {
    hide StepOk, UsesMore, StepAgent, MeetsError, NoExec, Inv, ExecsLeft, Clean, Used, AnyFatal, RxSteps.PollRecv,
      RxSteps.Log, Decode;
    StepUses(a, e);
    var a' := StepAgent(a, e);
    StepOkUses(a, e);
    UsesAppend(s, a, a');
    assert (events + [e])[|events|] == e;
    LogOfStart(s, a);
    if e.MainPoll? {
      if a.main.AwaitingExec? {
        AwaitsWithoutTrace(a, w);
        AwaitExecInv(s, a, e.reason);
      }
      MainErrorStays(a, e.spawn, e.reason);
    }
  }

  lemma LogOfStart(s: Agent, a: Agent)
    requires UsesMore(s, a)
    ensures Malformed in RxSteps.Log(a.rx, Decode) ==> Malformed in RxSteps.Log(s.rx, Decode)
  {
    hide RxSteps.Log, Decode;
  }

  lemma MainErrorStays(a: Agent, spawn: SpawnResult, reason: Json.Text)
    ensures AllEnded(StepAgent(a, MainPoll(spawn, reason))) <==> AllEnded(a)
    ensures AllOk(StepAgent(a, MainPoll(spawn, reason))) <==> AllOk(a)
  {
    hide PollMain;
    MainSparesTasks(a, spawn, reason);
  }

  lemma StepExplains(s: Agent, a: Agent, w: World, events: seq<AgentEvent>, e: AgentEvent, part: Part)
    requires FaultInv(s, a, events) && Inv(a, w) && StatusInv(a)
    requires EndedBadly(part, StepAgent(a, e))
    ensures Explains(part, s, StepAgent(a, e), events + [e])
  {
    hide StepAgent, EndedBadly, Explains, UsesMore, NotPassedOver, ExecInv, Inv, StatusInv, MeetsError;
    StepStatus(a, e);
    if EndedBadly(part, a) {
      ExplainsStill(part, s, a, events, e);
    } else {
      ExplainsNow(s, a, w, events, e);
    }
  }

  lemma StepNotPassedOver(s: Agent, a: Agent, e: AgentEvent)
    requires UsesMore(s, a) && NotPassedOver(s, a) && StatusInv(a)
    ensures NotPassedOver(s, StepAgent(a, e))
  {
    hide StepAgent, StepOk, UsesMore, MeetsError, ConnectionFailed, FeedFailed, OutFailed, ErrFailed;
    StepUses(a, e);
    var a' := StepAgent(a, e);
    StepOkUses(a, e);
    UsesAppend(s, a, a');
    StepStatus(a, e);
    MetHere(a, e);
    if Unfinished(a'.main) && ConnectionFailed(s, a') {
      if ConnectionFailed(s, a) {
        var part :| part != MainPart && EndedBadly(part, a);
        assert EndedBadly(part, a');
      } else {
        assert EndedBadly(PartOf(e), a');
      }
    }
  }

  lemma MetHere(a: Agent, e: AgentEvent)
    requires IsMet(a, e, StepAgent(a, e)) && StatusInv(a)
    ensures var a' := StepAgent(a, e);
            && (Unfinished(a'.main) ==> Unfinished(a.main))
            && (Unfinished(a.main) && ConnectionFailed(a, a') ==> MeetsError(a, e))
            && (FeedFailed(a, a') ==> PartOf(e) == StdinPart && MeetsError(a, e))
            && (OutFailed(a, a') ==> PartOf(e) == StdoutPart && MeetsError(a, e))
            && (ErrFailed(a, a') ==> PartOf(e) == StderrPart && MeetsError(a, e))
  {
    hide PollTask, MeetsError, RxSteps.PollRecv, SendTurn, SendOne, Added, TxAfter, LineBuffered, PollClose, AllEnded,
      Clean, Used, AnyFatal;
    StepStatus(a, e);
    if !e.MainPoll? && a.main.Joining? {
      TaskKeepsMode(a, e);
    }
  }

  lemma StepFaultInv(s: Agent, a: Agent, w: World, events: seq<AgentEvent>, e: AgentEvent)
    requires FaultInv(s, a, events) && Inv(a, w) && StatusInv(a)
    ensures FaultInv(s, StepAgent(a, e), events + [e])
  {
    hide StepAgent, EndedBadly, Explains, NotPassedOver, ExecInv, Inv, StatusInv, StepOk, UsesMore;
    StepUses(a, e);
    StepOkUses(a, e);
    UsesAppend(s, a, StepAgent(a, e));
    StepNotPassedOver(s, a, e);
    StepExecInv(s, a, w, e);
    forall part | EndedBadly(part, StepAgent(a, e))
      ensures Explains(part, s, StepAgent(a, e), events + [e])
    {
      StepExplains(s, a, w, events, e, part);
    }
  }

  lemma InitFaultInv(w: World)
    ensures FaultInv(InitAgent(w), InitAgent(w), [])
  {
    hide UsesMore, EndedBadly, ExecsLeft, Explains;
    InitStatus(w);
    SameUses(InitAgent(w));
  }

  lemma {:induction false} RunFaultInv(w: World, events: seq<AgentEvent>)
    ensures FaultInv(InitAgent(w), RunAgent(InitAgent(w), events), events)
  {
    hide StepAgent, FaultInv, InitAgent, Inv, StatusInv;
    if events == [] {
      InitFaultInv(w);
    } else {
      var n := |events| - 1;
      RunFaultInv(w, events[..n]);
      Reachable(w, events[..n]);
      RunStatus(w, events[..n]);
      StepFaultInv(InitAgent(w), RunAgent(InitAgent(w), events[..n]), w, events[..n], events[n]);
      assert events[..n] + [events[n]] == events;
    }
  }

  // ---------------------------------------------------------------------------------------------------------------
  // The theorems
  // ---------------------------------------------------------------------------------------------------------------

  /** A bad end comes from the surroundings, each part's from what it deals with; main's also from the lack of an `exec` and
      from the bad end of a task. */
  lemma BadEndsComeFrom(w: World, events: seq<AgentEvent>, part: Part)
    ensures var a := RunAgent(InitAgent(w), events);
            EndedBadly(part, a) ==> Explains(part, InitAgent(w), a, events)
  {
    hide RunAgent, Explains, EndedBadly, UsesMore, NotPassedOver, ExecInv, InitAgent;
    RunFaultInv(w, events);
  }

  /** And failures do come out: one of the connection before the result ends a task badly, so that the result is not Ok; so
      does one of a pipe to or from the child. */
  lemma FailuresComeOut(w: World, events: seq<AgentEvent>)
    ensures NotPassedOver(InitAgent(w), RunAgent(InitAgent(w), events))
  {
    hide RunAgent, Explains, EndedBadly, UsesMore, NotPassedOver, ExecInv, InitAgent;
    RunFaultInv(w, events);
  }

  /** Nothing fails: neither the connection nor a pipe, the host sends only well-formed messages and an `exec` among them, and
      no spawn, wait or close fails. Nothing is said about how often anything is not ready. */
  ghost predicate Healthy(w: World, events: seq<AgentEvent>) {
    && !AnyFatal(w.writes) && FlushBreaks !in w.flushes && !AnyFatal(w.childIn)
    && ReadBreaks !in w.host.schedule && ReadBreaks !in w.childOut.schedule && ReadBreaks !in w.childErr.schedule
    && Malformed !in Heard(w.host.unread) && RxSteps.Wanted(Heard(w.host.unread), ExecFromMessage) != []
    && forall e <- events :: e != ExitPoll(WaitFails) && e != StdoutHostPoll(false) && e != StderrHostPoll(false)
                             && (e.MainPoll? ==> e.spawn != SpawnFails)
  }

  lemma HealthyUses(w: World, a: Agent)
    requires !AnyFatal(w.writes) && FlushBreaks !in w.flushes && !AnyFatal(w.childIn)
    requires ReadBreaks !in w.host.schedule && ReadBreaks !in w.childOut.schedule && ReadBreaks !in w.childErr.schedule
    ensures var s := InitAgent(w);
            && !ConnectionFailed(s, a) && !FeedFailed(s, a) && !OutFailed(s, a) && !ErrFailed(s, a)
            && ReadBreaks !in Used(HostSchedule(s), HostSchedule(a))
  {
  }

  lemma InitLog(w: World)
    ensures RxSteps.Log(InitAgent(w).rx, Decode) == Heard(w.host.unread)
  {
    hide Decode, Frames;
    assert [] + w.host.unread == w.host.unread;
    assert RxSteps.AsItems([]) == [];
  }

  /** If nothing fails, no part of the agent ends badly, whatever the schedule, and no error is reported. So every part that
      ends has ended well, and a run that is over is Ok. */
  lemma HealthyRun(w: World, events: seq<AgentEvent>)
    requires Healthy(w, events)
    ensures var a := RunAgent(InitAgent(w), events);
            && (forall part :: !EndedBadly(part, a))
            && (a.status.Some? ==> a.status == Some(true) && Complete(a.trace))
  {
    hide RunAgent, InitAgent, EndedBadly, ConnectionFailed, FeedFailed, OutFailed, ErrFailed, RxSteps.Log,
      RxSteps.Wanted, Heard, Decode, Complete, Wire, Bodies, AnyFatal, Used, AllOk, AllEnded;
    var a := RunAgent(InitAgent(w), events);
    HealthyUses(w, a);
    InitLog(w);
    forall part
      ensures part != MainPart ==> !EndedBadly(part, a)
    {
      BadEndsComeFrom(w, events, part);
    }
    EndedAll(a);
    BadIsStatus(a);
    if EndedBadly(MainPart, a) {
      BadEndsComeFrom(w, events, MainPart);
      NoSpawnFails(w, events);
      assert false;
    }
    if a.status.Some? {
      assert a.status == Some(a.status.value) && a.status.value;
      SuccessfulRun(w, events);
    }
  }

  lemma NoSpawnFails(w: World, events: seq<AgentEvent>)
    requires Healthy(w, events)
    ensures forall reason :: MainPoll(SpawnFails, reason) !in events
  {
    hide Heard, RxSteps.Wanted, AnyFatal;
    forall reason
      ensures MainPoll(SpawnFails, reason) !in events
    {
      var e := MainPoll(SpawnFails, reason);
      assert e.MainPoll? && e.spawn == SpawnFails;
    }
  }

  lemma EndedAll(a: Agent)
    requires forall part :: part != MainPart ==> !EndedBadly(part, a)
    ensures AllEnded(a) ==> AllOk(a)
  {
    assert !EndedBadly(ExitPart, a) && !EndedBadly(StdinPart, a) && !EndedBadly(StdoutPart, a) && !EndedBadly(StderrPart, a);
  }

  lemma BadIsStatus(a: Agent)
    ensures EndedBadly(MainPart, a) <==> a.status == Some(false)
  {
  }

  /** The tasks split the output into lines unless the first `exec` of the host says otherwise. */
  lemma ExecIsObeyed(w: World, events: seq<AgentEvent>)
    ensures var a := RunAgent(InitAgent(w), events);
            var execs := RxSteps.Wanted(Heard(w.host.unread), ExecFromMessage);
            HasStarted(a.trace) ==>
              execs != [] && (a.lineBuffered <==> execs[0].lineBufferedIo != Some(false))
  {
    hide RunAgent, UsesMore, NotPassedOver, EndedBadly, Explains, RxSteps.Log, RxSteps.Wanted, Heard, Decode, InitAgent;
    RunFaultInv(w, events);
    InitLog(w);
  }
}
