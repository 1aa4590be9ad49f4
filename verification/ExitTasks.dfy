/** The task that delivers signals and waits for the child, as an object over the shared `Handle` and the shared `RxLocal`.
    What a wait for the child answers is left open. */
module ExitTasks {
  import opened Basics
  import opened Connection
  import opened Messages
  import opened TxSteps
  import RxSteps
  import opened Tx
  import opened Rx
  import opened AgentSteps
  import opened AgentPolls
  import opened Runs

  /** What the steps of the task work on. */
  datatype WatchState = WatchState(
    tx: Local, rx: RxSteps.Local, phase: ExitPhase, signals: seq<i32>, added: seq<Message>)

  datatype WatchEvent = ListenForKill | WaitForChild(result: WaitResult)

  function StepWatch(c: WatchState, e: WatchEvent): WatchState {
    match e
    case ListenForKill =>
      var k := PollKill(c.rx, c.phase);
      c.(rx := k.rx, phase := k.phase, signals := c.signals + k.signals)
    case WaitForChild(result) =>
      var x := PollExit(c.tx, c.phase, result);
      c.(tx := x.tx, phase := x.phase, added := c.added + x.added)
  }

  /** The child is still running, or the connection is not ready for its status. */
  predicate WatchWaits(c: WatchState, e: WatchEvent) {
    && e.WaitForChild?
    && match c.phase
       case Waiting => e.result.StillRunning?
       case SendingExited(_, send) => Waits(c.tx, send)
       case ExitEnded(_) => false
  }

  /** Listening to the host does not end the wait for the child. */
  function WatchMachine(): Machine<WatchState, WatchEvent> {
    Machine(
      (c: WatchState, e: WatchEvent) => StepWatch(c, e),
      (c: WatchState, e: WatchEvent) => WatchWaits(c, e),
      (e: WatchEvent) => e.ListenForKill?)
  }

  /** Where a poll of its future brings the task when it sends. */
  function AfterSend(status: i32, p: PolledFuture): ExitPhase {
    match p.outcome
    case Ready(Ok(_)) => ExitEnded(true)
    case Ready(Err(_)) => ExitEnded(false)
    case Pending => SendingExited(status, p.future)
  }

  /** A poll of the future is one step of the task, or two. */
  lemma WatchSends(c: WatchState, f: SendFuture) returns (events: seq<WatchEvent>)
    requires c.phase.SendingExited? && c.phase.send == f && |f.msgs| <= 1
    ensures var p := PollFuture(Open(c.tx), f);
            var c' := Run(WatchMachine().step, c, events);
            && p.tx == Open(c'.tx) && c'.rx == c.rx && c'.signals == c.signals
            && c'.phase == AfterSend(c.phase.status, p)
            && (p.outcome.Pending? ==> Stuck(WatchMachine(), c, events))
            && |p.future.msgs| <= 1
  {
    OneMessagePoll(Open(c.tx), f);
    var e := WaitForChild(StillRunning);
    events := [e];
    RunOne(WatchMachine().step, c, e);
    var t := SendTurn(Open(c.tx), f);
    var mid := StepWatch(c, e);
    hide TxSteps.PollSend, TxSteps.PollFlush, PollFuture, Run, Added, Stuck;
    if t.result.None? {
      events := [e] + [e];
      RunAppend(WatchMachine().step, c, [e], [e]);
      RunOne(WatchMachine().step, mid, e);
      if WatchWaits(mid, e) {
        StuckNow(WatchMachine(), mid, e);
        StuckLater(WatchMachine(), c, [e], [e]);
      }
    } else if WatchWaits(c, e) {
      StuckNow(WatchMachine(), c, e);
    }
  }

  function Rank(phase: ExitPhase): nat {
    match phase
    case Waiting => 2
    case SendingExited(_, _) => 1
    case ExitEnded(_) => 0
  }

  ghost predicate Keeps(c: WatchState, c': WatchState) {
    && |RxSteps.Log(c'.rx, Decode)| <= |RxSteps.Log(c.rx, Decode)|
    && |c'.rx.reading.source.schedule| <= |c.rx.reading.source.schedule|
  }

  /** The measure by which a poll of the task ends. Being told the end of the host's stream does not end the listening,
      but uses up an answer of the reader. */
  ghost predicate Precedes(c: WatchState, c': WatchState) {
    && Keeps(c, c')
    && (|| |RxSteps.Log(c'.rx, Decode)| < |RxSteps.Log(c.rx, Decode)|
        || |c'.rx.reading.source.schedule| < |c.rx.reading.source.schedule|
        || Rank(c'.phase) < Rank(c.phase))
  }

  predicate KillReady(c: WatchState) {
    RxSteps.PollRecv(c.rx, KillFromMessage, Decode).answer.Ready?
  }

  /** Listening shortens what is left to receive, unless nothing is ready. */
  lemma ListenAdvances(c: WatchState)
    requires c.phase == Waiting
    ensures Keeps(c, StepWatch(c, ListenForKill))
    ensures KillReady(c) ==> Precedes(c, StepWatch(c, ListenForKill))
  {
    AgentFilters();
    hide RxSteps.PollRecv, RxSteps.Log, Decode, Encode, Disjoint, PollExit;
    RecvShortens(c.rx, KillFromMessage);
    RecvUsesSchedule(c.rx, KillFromMessage);
  }

  /** A step of the unfinished task that is not kept waiting comes nearer to the end, or has the message sent at least. */
  lemma WatchAdvances(c: WatchState, result: WaitResult)
    requires !c.phase.ExitEnded? && !WatchWaits(c, WaitForChild(result))
    ensures var c' := StepWatch(c, WaitForChild(result));
            || Precedes(c, c')
            || (&& c.phase.SendingExited? && c'.phase.SendingExited? && c'.rx == c.rx
                && |c'.phase.send.msgs| < |c.phase.send.msgs|)
  {
    hide RxSteps.Log, Decode, Encode, PollKill, LockedSend, LockedFlush, Added, NewFuture;
  }

  lemma KeepsAndPrecedes(a: WatchState, b: WatchState, c: WatchState)
    requires Keeps(a, b) && Rank(b.phase) == Rank(a.phase)
    ensures Precedes(b, c) ==> Precedes(a, c)
  {
    hide RxSteps.Log, Decode;
  }

  datatype WatchStage = Watches | TellsExit(status: i32) | Over(ok: bool)

  class ExitWatch {
    const tx: Handle
    const rx: RxLocal
    const send: DoSend
    var stage: WatchStage
    ghost var signals: seq<i32>
    ghost var sent: seq<Message>

    ghost function Repr(): set<object> {
      {this, send}
    }

    ghost predicate Valid()
      reads this, Repr(), tx
    {
      && tx.local.Some?
      && rx.reader.decode == Decode
      && send.tx == tx
      && (stage.TellsExit? ==> |send.msgs| <= 1)
    }

    ghost function Phase(): ExitPhase
      reads this, Repr()
    {
      match stage
      case Watches => Waiting
      case TellsExit(status) => SendingExited(status, send.State())
      case Over(ok) => ExitEnded(ok)
    }

    ghost function State(): WatchState
      requires tx.local.Some?
      reads this, Repr(), tx, tx.Repr(), rx, rx.reader, rx.reader.reader, rx.msgs
    {
      WatchState(tx.State().local, rx.State(), Phase(), signals, sent)
    }

    constructor (tx: Handle, rx: RxLocal)
      requires tx.local.Some? && rx.reader.decode == Decode
      ensures Valid() && fresh(Repr()) && allocated(Repr())
      ensures this.tx == tx && this.rx == rx && sent == [] && signals == [] && Phase() == Waiting
    {
      this.tx, this.rx := tx, rx;
      send := new DoSend(tx, [], false);
      stage, signals, sent := Watches, [], [];
    }

    /** The branch that delivers signals. */
    method Listen() returns (ready: bool, ghost events: seq<WatchEvent>)
      requires Valid() && stage == Watches
      modifies this, rx.reader, rx.reader.reader, rx.msgs
      ensures Valid()
      ensures events == [ListenForKill] && State() == Run(WatchMachine().step, old(State()), events)
      ensures !ready ==> stage == Watches && Keeps(old(State()), State())
      ensures ready ==> Precedes(old(State()), State())
    {
      AgentFilters();
      hide RxSteps.PollRecv, RxSteps.Log, Decode, Encode, Disjoint, PollExit, KillFromMessage, Run;
      events := [ListenForKill];
      RunOne(WatchMachine().step, State(), ListenForKill);
      ListenAdvances(State());
      var answer := rx.PollRecv(KillFromMessage);
      ready := answer.Ready?;
      match answer
      case Pending =>
      case Ready(Err(_)) => stage := Over(false);
      case Ready(Ok(None)) =>
      case Ready(Ok(Some(signal))) => signals := signals + [signal];
    }

    /** The branch that waits for the child. */
    method Wait() returns (ready: bool, ghost events: seq<WatchEvent>)
      requires Valid() && stage == Watches
      modifies this, send
      ensures Valid()
      ensures State() == Run(WatchMachine().step, old(State()), events)
      ensures if ready then Precedes(old(State()), State())
              else stage == Watches && State() == old(State()) && Stuck(WatchMachine(), old(State()), events)
    {
      hide RxSteps.PollRecv, RxSteps.Log, Decode, Encode, Run, Stuck, PollExited;
      var result: WaitResult := *;
      ghost var before := State();
      events := [WaitForChild(result)];
      RunOne(WatchMachine().step, before, WaitForChild(result));
      ready := !result.StillRunning?;
      match result
      case StillRunning => StuckNow(WatchMachine(), before, WaitForChild(result));
      case WaitFails => stage := Over(false);
      case Exits(status) =>
        send.Replace([Encode(Exited(status))], true);
        stage := TellsExit(status);
    }

    /** One poll of `select!`, whose branches are polled in any order. */
    method Select() returns (taken: bool, ghost events: seq<WatchEvent>)
      requires Valid() && stage == Watches
      modifies this, send, rx.reader, rx.reader.reader, rx.msgs
      ensures Valid()
      ensures State() == Run(WatchMachine().step, old(State()), events)
      ensures if taken then Precedes(old(State()), State()) else Stuck(WatchMachine(), old(State()), events)
    {
      hide RxSteps.Log, Decode, Run, Stuck, StepWatch, WatchWaits, Precedes, Keeps;
      ghost var before, more := State(), [];
      var killFirst: bool := *;
      if killFirst {
        taken, events := Listen();
        if !taken {
          ghost var mid := State();
          taken, more := Wait();
          RunAppend(WatchMachine().step, before, events, more);
          KeepsAndPrecedes(before, mid, State());
          if !taken {
            StuckLater(WatchMachine(), before, events, more);
          }
          events := events + more;
        }
      } else {
        taken, events := Wait();
        if !taken {
          ghost var mid := State();
          taken, more := Listen();
          RunAppend(WatchMachine().step, before, events, more);
          StaysStuck(WatchMachine(), before, events, more);
          events := events + more;
        }
      }
    }

    /** A poll of the message that ends the task. */
    method PollSend() returns (outcome: Outcome, ghost events: seq<WatchEvent>)
      requires Valid() && stage.TellsExit?
      modifies this, send, tx.Repr()
      ensures Valid() && tx.local == old(tx.local)
      ensures State() == Run(WatchMachine().step, old(State()), events)
      ensures if outcome.Pending? then Stuck(WatchMachine(), old(State()), events) else stage == Over(outcome.value.Ok?)
    {
      hide PollFuture, Run, Stuck, WatchMachine, Decode;
      ghost var before := State();
      events := WatchSends(before, send.State());
      ghost var after := Run(WatchMachine().step, before, events);
      hide PollExit, SendTurn, RxSteps.PollRecv, Encode;
      outcome := send.Poll();
      assert rx.State() == after.rx && tx.State() == Open(after.tx);
      sent := after.added;
      if outcome.Ready? {
        stage := Over(outcome.value.Ok?);
      }
    }

    /** One poll of `select!`, or of what is being sent. */
    method Turn() returns (moved: bool, ghost events: seq<WatchEvent>)
      requires Valid() && !stage.Over?
      modifies Repr(), tx.Repr(), rx.reader, rx.reader.reader, rx.msgs
      ensures Valid() && tx.local == old(tx.local)
      ensures State() == Run(WatchMachine().step, old(State()), events)
      ensures if moved then Precedes(old(State()), State()) else Stuck(WatchMachine(), old(State()), events)
    {
      hide WatchMachine, Run, Stuck, RxSteps.Log, Decode;
      if stage.TellsExit? {
        var outcome;
        outcome, events := PollSend();
        moved := outcome.Ready?;
      } else {
        moved, events := Select();
      }
    }

    /** One poll of the task. */
    method Poll() returns (r: Poll<bool>, ghost events: seq<WatchEvent>)
      requires Valid()
      modifies Repr(), tx.Repr(), rx.reader, rx.reader.reader, rx.msgs
      ensures Valid() && tx.local == old(tx.local)
      ensures State() == Run(WatchMachine().step, old(State()), events)
      ensures match r
              case Ready(ok) => stage == Over(ok)
              case Pending => Stuck(WatchMachine(), old(State()), events)
    {
      hide WatchMachine, Stuck, Decode, RxSteps.Log;
      events := [];
      while !stage.Over?
        invariant Valid() && tx.local == old(tx.local)
        invariant State() == Run(WatchMachine().step, old(State()), events)
        decreases |RxSteps.Log(State().rx, Decode)|, |State().rx.reading.source.schedule|, Rank(State().phase)
      {
        var moved, more := Turn();
        RunAppend(WatchMachine().step, old(State()), events, more);
        if !moved {
          StuckLater(WatchMachine(), old(State()), events, more);
          return Pending, events + more;
        }
        events := events + more;
      }
      r := Ready(stage.ok);
    }
  }
}
